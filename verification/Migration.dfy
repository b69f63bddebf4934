/** `scripts/migrate_pgvector_to_seahorsedb.py`: ship indexed chunks to another
    store in batches, with a resumable checkpoint and one numbering of the ids. */
module Migration {
  import opened ChunkIds
  import opened Options

  /** A source row; a text without terms encodes to nothing, under no epoch. */
  datatype Row = Row(id: ChunkId, dense: bool, terms: bool)

  /** A row that landed in the target, and the epoch its ids were read at. */
  datatype Shipped = Shipped(id: ChunkId, epoch: Option<nat>)

  /** The progress file; one written before epochs existed carries none. */
  datatype Progress = Absent | At(id: ChunkId, epoch: Option<nat>)

  ghost predicate Ascending(rows: seq<Row>) {
    forall i, j | 0 <= i < j < |rows| :: rows[i].id < rows[j].id
  }

  function Ids(rows: seq<Row>): (r: seq<ChunkId>)
    ensures |r| == |rows| && forall i | 0 <= i < |rows| :: r[i] == rows[i].id
  {
    if rows == [] then [] else Ids(rows[..|rows| - 1]) + [rows[|rows| - 1].id]
  }

  lemma {:induction false} IdsSplit(a: seq<Row>, b: seq<Row>)
    ensures Ids(a + b) == Ids(a) + Ids(b)
  {
  }

  /** `c.id > resume_after`, in id order. */
  function Pending(table: seq<Row>, progress: Progress): seq<Row> {
    if table == [] then [] else
      (if progress.Absent? || table[0].id > progress.id then [table[0]] else []) + Pending(table[1..], progress)
  }

  lemma {:induction false} PendingMembers(table: seq<Row>, progress: Progress)
    ensures forall r :: r in Pending(table, progress) <==> r in table && (progress.Absent? || r.id > progress.id)
  {
    if table != [] {
      PendingMembers(table[1..], progress);
      assert table == [table[0]] + table[1..];
    }
  }

  lemma TailAscends(table: seq<Row>)
    requires Ascending(table) && table != []
    ensures Ascending(table[1..]) && forall r | r in table[1..] :: table[0].id < r.id
  {
    forall r | r in table[1..] ensures table[0].id < r.id {
      var i :| 0 <= i < |table[1..]| && table[1..][i] == r;
      assert r == table[i + 1];
    }
  }

  lemma HeadAscends(r: Row, rows: seq<Row>)
    requires Ascending(rows) && forall x | x in rows :: r.id < x.id
    ensures Ascending([r] + rows)
  {
  }

  lemma {:induction false} PendingAscends(table: seq<Row>, progress: Progress)
    requires Ascending(table)
    ensures Ascending(Pending(table, progress))
    ensures forall r :: r in Pending(table, progress) <==> r in table && (progress.Absent? || r.id > progress.id)
  {
    PendingMembers(table, progress);
    if table != [] {
      TailAscends(table);
      PendingAscends(table[1..], progress);
      HeadAscends(table[0], Pending(table[1..], progress));
    }
  }

  // ── Batches ──────────────────────────────────────────────────────

  class RowCursor {
    var rest: seq<Row>

    constructor (rows: seq<Row>)
      ensures rest == rows
    {
      rest := rows;
    }

    /** Up to `n` more rows; none only at the end. */
    method Fetch(n: nat) returns (rows: seq<Row>)
      requires n > 0
      modifies this
      ensures rows + rest == old(rest) && |rows| <= n && (rows == [] <==> old(rest) == [])
    {
      if rest == [] { return []; }
      var m: nat :| 1 <= m <= n && m <= |rest|;
      rows, rest := rest[..m], rest[m..];
    }
  }

  /** `_iter_chunks`: the rows in order, none twice and none left out; only the
      last batch may be short. */
  method NextBatch(cursor: RowCursor, batch: nat) returns (buf: seq<Row>)
    requires batch > 0
    modifies cursor
    ensures buf + cursor.rest == old(cursor.rest)
    ensures buf == [] ==> old(cursor.rest) == []
    ensures |buf| < 2 * batch && (|buf| < batch ==> cursor.rest == [])
  {
    buf := [];
    ghost var all := cursor.rest;
    while true
      invariant buf + cursor.rest == all && |buf| < batch
      decreases |cursor.rest|
    {
      var rows := cursor.Fetch(batch);
      if rows == [] { return; }
      buf := buf + rows;
      if |buf| >= batch { return; }
    }
  }

  // ── The checkpoint rule ──────────────────────────────────────────

  /** `seen % checkpoint_every < len(batch_payload) or seen >= total`. */
  predicate Due(seen: nat, payload: nat, total: nat, every: nat) {
    every > 0 && (seen % every < payload || seen >= total)
  }

  function Quotient(n: nat, every: nat): nat
    requires every > 0
  {
    n / every
  }

  lemma DivBounds(n: nat, every: nat)
    requires every > 0
    ensures every * (n / every) + n % every == n && 0 <= n % every < every
  {
  }

  lemma DivUnique(n: nat, every: nat, q: nat)
    requires every > 0 && every * q <= n < every * q + every
    ensures n / every == q
  {
    DivBounds(n, every);
    var p := n / every;
    if p < q { MulStep(every, p, q); }
    if q < p { MulStep(every, q, p); }
  }

  lemma {:induction false} MulStep(every: nat, p: nat, q: nat)
    requires p < q
    ensures every * p + every <= every * q
  {
    if q > p + 1 { MulStep(every, p, q - 1); }
  }

  /** The rule never lets a multiple of `every` go by. */
  lemma CrossingIsDue(before: nat, seen: nat, payload: nat, total: nat, every: nat)
    requires every > 0 && before <= seen <= before + payload && !Due(seen, payload, total, every)
    ensures Quotient(before, every) == Quotient(seen, every)
  {
    DivBounds(seen, every);
    DivUnique(before, every, seen / every);
  }

  lemma QuotientMost(seen: nat, every: nat, q: nat)
    requires every > 0 && every * q <= seen
    ensures every * q <= every * (seen / every)
  {
    DivBounds(seen, every);
    if seen / every < q { MulStep(every, seen / every, q); }
    if q < seen / every { MulStep(every, q, seen / every); }
  }

  function Multiple(every: nat, q: nat): nat {
    every * q
  }

  /** When a checkpoint is written: at the end, or when the last `payload` rows reached
      a multiple of `every`, and at no other time. */
  lemma DueIff(seen: nat, payload: nat, total: nat, every: nat)
    ensures Due(seen, payload, total, every) <==>
      every > 0 && (seen >= total || exists q: nat :: seen - payload < Multiple(every, q) <= seen)
  {
    if every > 0 {
      DivBounds(seen, every);
      if seen % every < payload { assert seen - payload < Multiple(every, seen / every) <= seen; }
      if q: nat :| seen - payload < Multiple(every, q) <= seen { QuotientMost(seen, every, q); }
    }
  }

  lemma SameQuotient(marked: nat, seen: nat, every: nat)
    requires every > 0 && marked <= seen && Quotient(marked, every) == Quotient(seen, every)
    ensures seen - marked < every
  {
    DivBounds(marked, every);
    DivBounds(seen, every);
  }

  // ── A run ────────────────────────────────────────────────────────

  datatype Outcome = Completed | NothingPending | DryRun | Renumbered | Crashed

  predicate Vouched(file: Progress) {
    file.At? && file.epoch.Some?
  }

  /** How a run begins, up to its first write. */
  datatype Opening = Refuse(outcome: Outcome) | Go

  function Open(file: Progress, pending: nat, dryRun: bool, epoch: nat): Opening {
    if pending == 0 then Refuse(NothingPending)
    else if dryRun then Refuse(DryRun)
    else if file.At? && file.epoch.Some? && file.epoch.value != epoch then Refuse(Renumbered)
    else Go
  }

  predicate Numbered(s: Shipped, epoch: nat) {
    s.epoch.None? || s.epoch == Some(epoch)
  }

  ghost predicate OneNumbering(shipped: seq<Shipped>, epoch: nat) {
    forall s | s in shipped :: Numbered(s, epoch)
  }

  ghost predicate Increasing(s: seq<ChunkId>) {
    forall i, j | 0 <= i < j < |s| :: s[i] < s[j]
  }

  ghost predicate AllAtMost(s: seq<ChunkId>, bound: ChunkId) {
    forall i | 0 <= i < |s| :: s[i] <= bound
  }

  ghost predicate AllAbove(s: seq<ChunkId>, bound: ChunkId) {
    forall i | 0 <= i < |s| :: s[i] > bound
  }

  /** The loop's counters. */
  datatype Tally = Tally(seen: nat, failed: nat)

  /** What they stand for: the rows read, the ids shipped and the ids given up,
      and how many had been shipped when the last checkpoint was written. */
  datatype Log = Log(rows: seq<Row>, done: seq<ChunkId>, lost: seq<ChunkId>, marked: nat, checkpoint: Option<ChunkId>)

  ghost predicate AnyTerms(shipped: seq<Shipped>) {
    exists s :: s in shipped && s.epoch.Some?
  }

  /** Rows counted in a run: shipped and failed together are the rows read. */
  ghost predicate Accounted(t: Tally, log: Log) {
    && |log.done| == t.seen && |log.lost| == t.failed
    && multiset(log.done) + multiset(log.lost) == multiset(Ids(log.rows))
    && Increasing(log.done)
  }

  /** The rows shipped beyond the checkpoint, which a crash now would ship again,
      are fewer than `every`; the checkpoint itself is a row already attempted. */
  ghost predicate Bounded(log: Log, every: nat) {
    && every > 0 && log.marked <= |log.done| && Quotient(log.marked, every) == Quotient(|log.done|, every)
    && |log.done| - log.marked < every
    && (log.checkpoint.None? ==> log.marked == 0)
    && (log.checkpoint.Some? ==>
          && log.checkpoint.value in Ids(log.rows)
          && AllAtMost(log.done[..log.marked], log.checkpoint.value)
          && AllAbove(log.done[log.marked..], log.checkpoint.value))
  }

  ghost predicate Sound(t: Tally, log: Log, every: nat) {
    Accounted(t, log) && Ascending(log.rows) && (if every > 0 then Bounded(log, every) else log.checkpoint.None?)
  }

  ghost predicate Forward(a: Option<ChunkId>, b: Option<ChunkId>) {
    a.Some? ==> b.Some? && a.value <= b.value
  }

  /** Every id counted as shipped is in the target. */
  ghost predicate Arrived(done: seq<ChunkId>, shipped: seq<Shipped>) {
    forall i | 0 <= i < |done| :: done[i] in Landed(shipped)
  }

  lemma ArrivedLater(done: seq<ChunkId>, shipped: seq<Shipped>, more: seq<Shipped>)
    requires Arrived(done, shipped)
    ensures Arrived(done, shipped + more)
  {
    LandedSplit(shipped, more);
  }

  lemma ArrivedBoth(a: seq<ChunkId>, b: seq<ChunkId>, shipped: seq<Shipped>)
    requires Arrived(a, shipped) && Arrived(b, shipped)
    ensures Arrived(a + b, shipped)
  {
  }

  lemma ArrivedOne(done: seq<ChunkId>, shipped: seq<Shipped>, s: Shipped)
    requires Arrived(done, shipped)
    ensures Arrived(done + [s.id], shipped + [s])
  {
    ArrivedLater(done, shipped, [s]);
    ArrivedWhole(shipped, [s]);
    assert Landed([s]) == [s.id];
    ArrivedBoth(done, [s.id], shipped + [s]);
  }

  /** Nothing that landed is ever taken out, and what is new is of these rows. */
  ghost predicate Grew(a: seq<Shipped>, b: seq<Shipped>, ids: seq<ChunkId>) {
    a <= b && forall i | |a| <= i < |b| :: b[i].id in ids
  }

  lemma GrewNot(a: seq<Shipped>, ids: seq<ChunkId>)
    ensures Grew(a, a, ids)
  {
  }

  lemma GrewMore(a: seq<Shipped>, b: seq<Shipped>, c: seq<Shipped>, ids: seq<ChunkId>, more: seq<ChunkId>,
                 all: seq<ChunkId>)
    requires Grew(a, b, ids) && Grew(b, c, more)
    requires (forall k | k in ids :: k in all) && (forall k | k in more :: k in all)
    ensures Grew(a, c, all)
  {
    assert c[..|a|] == c[..|b|][..|a|];
    forall i | |a| <= i < |c| ensures c[i].id in all {
      if i < |b| { assert c[i] == b[i]; }
    }
  }

  lemma GrewByBatch(a: seq<Shipped>, b: seq<Shipped>, c: seq<Shipped>, rows: seq<Row>, batch: seq<Row>)
    requires Grew(a, b, Ids(rows)) && Grew(b, c, Ids(batch))
    ensures Grew(a, c, Ids(rows + batch))
  {
    IdsSplit(rows, batch);
    GrewMore(a, b, c, Ids(rows), Ids(batch), Ids(rows + batch));
  }

  lemma GrewTwice(a: seq<Shipped>, b: seq<Shipped>, c: seq<Shipped>, ids: seq<ChunkId>)
    requires Grew(a, b, ids) && Grew(b, c, ids)
    ensures Grew(a, c, ids)
  {
    GrewMore(a, b, c, ids, ids, ids);
  }

  lemma GrewByRow(a: seq<Shipped>, b: seq<Shipped>, c: seq<Shipped>, payload: seq<Shipped>, n: nat)
    requires n < |payload| && Grew(a, b, Landed(payload)) && Grew(b, c, [payload[n].id])
    ensures Grew(a, c, Landed(payload))
  {
    assert Landed(payload)[n] == payload[n].id;
    GrewMore(a, b, c, Landed(payload), [payload[n].id], Landed(payload));
  }

  lemma GrewWider(a: seq<Shipped>, b: seq<Shipped>, ids: seq<ChunkId>, wider: seq<ChunkId>)
    requires Grew(a, b, ids) && forall k | k in ids :: k in wider
    ensures Grew(a, b, wider)
  {
  }

  lemma ArrivedPrefix(done: seq<ChunkId>, a: seq<Shipped>, b: seq<Shipped>, ids: seq<ChunkId>)
    requires Arrived(done, a) && Grew(a, b, ids)
    ensures Arrived(done, b)
  {
    assert b == a + b[|a|..];
    ArrivedLater(done, a, b[|a|..]);
  }

  lemma ArrivedWhole(shipped: seq<Shipped>, more: seq<Shipped>)
    ensures Arrived(Landed(more), shipped + more)
  {
    LandedSplit(shipped, more);
  }

  /** A start without a file that vouches for an epoch: how much had been shipped
      by then, and the epoch the run began under. */
  datatype Start = Start(at: nat, epoch: nat)

  ghost predicate ReadBy(shipped: seq<Shipped>, epoch: nat) {
    forall s | s in shipped && s.epoch.Some? :: s.epoch.value <= epoch
  }

  /** No ids are read at an epoch still to come, neither now nor at any such start. */
  ghost predicate Began(starts: seq<Start>, shipped: seq<Shipped>, epoch: nat) {
    && ReadBy(shipped, epoch)
    && forall i | 0 <= i < |starts| ::
         starts[i].at <= |shipped| && starts[i].epoch <= epoch && ReadBy(shipped[..starts[i].at], starts[i].epoch)
  }

  lemma BeganLater(starts: seq<Start>, shipped: seq<Shipped>, epoch: nat, later: nat)
    requires Began(starts, shipped, epoch) && epoch <= later
    ensures Began(starts, shipped, later)
  {
  }

  lemma BeganMore(starts: seq<Start>, shipped: seq<Shipped>, epoch: nat, rows: seq<Shipped>)
    requires Began(starts, shipped, epoch) && ReadBy(rows, epoch)
    ensures Began(starts, shipped + rows, epoch)
  {
    forall i | 0 <= i < |starts| ensures ReadBy((shipped + rows)[..starts[i].at], starts[i].epoch) {
      assert (shipped + rows)[..starts[i].at] == shipped[..starts[i].at];
    }
  }

  lemma BeganHere(starts: seq<Start>, shipped: seq<Shipped>, epoch: nat)
    requires Began(starts, shipped, epoch)
    ensures Began(starts + [Start(|shipped|, epoch)], shipped, epoch)
  {
    assert shipped[..|shipped|] == shipped;
  }

  predicate LastStart(starts: seq<Start>, at: nat, epoch: nat) {
    starts != [] && starts[|starts| - 1] == Start(at, epoch)
  }

  /** What had been shipped before a start was of the epoch it began under. */
  ghost predicate CleanStart(b: Start, shipped: seq<Shipped>) {
    b.at <= |shipped| && OneNumbering(shipped[..b.at], b.epoch)
  }

  ghost predicate CleanStarts(starts: seq<Start>, shipped: seq<Shipped>) {
    forall i | 0 <= i < |starts| :: CleanStart(starts[i], shipped)
  }

  /** With everything since the last such start under one epoch, everything is, if
      and only if each start found only ids of its own epoch. */
  lemma WholeIffCleanStarts(starts: seq<Start>, shipped: seq<Shipped>, at: nat, epoch: nat)
    requires Began(starts, shipped, epoch) && LastStart(starts, at, epoch)
    requires OneNumbering(shipped[at..], epoch)
    ensures OneNumbering(shipped, epoch) <==> CleanStarts(starts, shipped)
  {
    assert shipped == shipped[..at] + shipped[at..];
    if CleanStarts(starts, shipped) {
      assert CleanStart(starts[|starts| - 1], shipped);
    }
    if OneNumbering(shipped, epoch) {
      forall i | 0 <= i < |starts| ensures CleanStart(starts[i], shipped) {
        var b := starts[i];
        forall s | s in shipped[..b.at] ensures Numbered(s, b.epoch) {
          assert s in shipped;
          assert ReadBy(shipped[..b.at], b.epoch);
        }
      }
    }
  }

  /** What happens to a run from outside: the process is stopped, or the target
      refuses a row sent on its own. */
  class Surroundings {
    ghost var stopped: bool
    ghost var refused: seq<ChunkId>

    constructor ()
      ensures !stopped && refused == []
    {
      stopped, refused := false, [];
    }

    method Stops() returns (dead: bool)
      modifies this`stopped
      ensures stopped == (old(stopped) || dead)
    {
      dead := *;
      stopped := stopped || dead;
    }

    method Takes(id: ChunkId) returns (ok: bool)
      modifies this`refused
      ensures refused == if ok then old(refused) else old(refused) + [id]
    {
      ok := *;
      refused := if ok then refused else refused + [id];
    }
  }

  /** A row of the payload for each row with a dense vector, under the epoch if it has
      terms; the others left out. */
  ghost predicate EachCoded(rows: seq<Row>, payload: seq<Shipped>, lost: seq<ChunkId>, under: nat) {
    && (forall i | 0 <= i < |payload| :: exists j :: 0 <= j < |rows| && CodesTo(rows[j], payload[i], under))
    && (forall i | 0 <= i < |lost| :: NotDense(rows, lost[i]))
  }

  predicate CodesTo(r: Row, s: Shipped, under: nat) {
    r.dense && s == Code(r, under)
  }

  /** What a row is sent as, encoded under this epoch. */
  function Code(r: Row, under: nat): Shipped {
    Shipped(r.id, if r.terms then Some(under) else None)
  }

  lemma EachCodedMore(rows: seq<Row>, r: Row, payload: seq<Shipped>, lost: seq<ChunkId>, under: nat)
    requires EachCoded(rows, payload, lost, under)
    ensures !r.dense ==> EachCoded(rows + [r], payload, lost + [r.id], under)
    ensures r.dense ==>
      EachCoded(rows + [r], payload + [Code(r, under)], lost, under)
  {
    var all := rows + [r];
    var s := Code(r, under);
    var more := if r.dense then payload + [s] else payload;
    assert all[|rows|] == r && (r.dense ==> CodesTo(r, s, under));
    forall i | 0 <= i < |more| ensures exists j :: 0 <= j < |all| && CodesTo(all[j], more[i], under) {
      if i < |payload| {
        var j :| 0 <= j < |rows| && CodesTo(rows[j], payload[i], under);
        assert CodesTo(all[j], more[i], under);
      } else {
        assert CodesTo(all[|rows|], more[i], under);
      }
    }
    var left := if r.dense then lost else lost + [r.id];
    forall i | 0 <= i < |left| ensures NotDense(all, left[i]) {
      if i < |lost| { NotDenseMore(rows, [r], lost[i]); }
    }
  }

  /** Why a row counts as failed: it has no dense vector, or the target refused it. */
  ghost predicate Excused(log: Log, refused: seq<ChunkId>) {
    forall i | 0 <= i < |log.lost| :: log.lost[i] in refused || NotDense(log.rows, log.lost[i])
  }

  ghost predicate NotDense(rows: seq<Row>, k: ChunkId) {
    exists j :: 0 <= j < |rows| && rows[j].id == k && !rows[j].dense
  }

  ghost predicate AllIn(lost: seq<ChunkId>, refused: seq<ChunkId>) {
    forall i | 0 <= i < |lost| :: lost[i] in refused
  }

  lemma ExcusedLater(log: Log, refused: seq<ChunkId>, more: seq<ChunkId>)
    requires Excused(log, refused) && refused <= more
    ensures Excused(log, more)
  {
    forall i | 0 <= i < |log.lost| && log.lost[i] in refused ensures log.lost[i] in more {
      var j :| 0 <= j < |refused| && refused[j] == log.lost[i];
      assert more[j] == refused[j];
    }
  }

  lemma ExcusedMore(log: Log, log': Log, refused: seq<ChunkId>, batch: seq<Row>, payload: seq<Shipped>,
                    left: seq<ChunkId>, lost: seq<ChunkId>, under: nat)
    requires Excused(log, refused) && EachCoded(batch, payload, left, under) && AllIn(lost, refused)
    requires log'.rows == log.rows + batch && log'.lost == log.lost + (left + lost)
    ensures Excused(log', refused)
  {
    forall i | 0 <= i < |log'.lost| ensures log'.lost[i] in refused || NotDense(log'.rows, log'.lost[i]) {
      if i < |log.lost| {
        if NotDense(log.rows, log.lost[i]) { NotDenseMore(log.rows, batch, log.lost[i]); }
      } else if i < |log.lost| + |left| {
        NotDenseMore(log.rows, batch, left[i - |log.lost|]);
      }
    }
  }

  lemma NotDenseMore(a: seq<Row>, b: seq<Row>, k: ChunkId)
    ensures NotDense(a, k) || NotDense(b, k) ==> NotDense(a + b, k)
  {
    if NotDense(a, k) {
      var j :| 0 <= j < |a| && a[j].id == k && !a[j].dense;
      assert (a + b)[j] == a[j];
    } else if NotDense(b, k) {
      var j :| 0 <= j < |b| && b[j].id == k && !b[j].dense;
      assert (a + b)[|a| + j] == b[j];
    }
  }

  class Migrator {
    var epoch: nat                  // the vocabulary's, moved by others
    var shipped: seq<Shipped>       // everything that ever landed in the target
    var file: Progress
    ghost var lineage: nat          // where in `shipped` this run and those it resumed from begin
    ghost var starts: seq<Start>    // the runs that began without a file to vouch for an epoch
    const keeps: bool               // a progress file is named
    const around: Surroundings

    constructor (epoch: nat, keeps: bool)
      ensures this.epoch == epoch && this.keeps == keeps && shipped == [] && file.Absent? && Lineage()
      ensures fresh(around) && !around.stopped
    {
      around := new Surroundings();
      this.epoch := epoch;
      this.keeps := keeps;
      shipped := [];
      file := Absent;
      lineage := 0;
      starts := [];
    }

    /** The state a first run leaves that began under `under`, shipped one row, and
        wrote it to the file. */
    constructor AsLeft(id: ChunkId, under: nat, epoch: nat)
      requires under <= epoch
      ensures this.epoch == epoch && keeps && shipped == [Shipped(id, Some(under))] && file == At(id, Some(under))
      ensures lineage == 0 && starts == [Start(0, under)] && Lineage() && fresh(around) && !around.stopped
    {
      around := new Surroundings();
      this.epoch := epoch;
      keeps := true;
      shipped := [Shipped(id, Some(under))];
      file := At(id, Some(under));
      lineage := 0;
      starts := [Start(0, under)];
    }

    /** What a progress file that carries an epoch vouches for. */
    ghost predicate Lineage()
      reads this
    {
      && lineage <= |shipped| && (!keeps ==> file.Absent?) && Began(starts, shipped, epoch)
      && (file.At? && file.epoch.Some? ==>
            && file.epoch.value <= epoch && OneNumbering(shipped[lineage..], file.epoch.value)
            && LastStart(starts, lineage, file.epoch.value))
    }

    /** The progress file is lost, removed, or no longer readable. */
    method LoseFile()
      requires Lineage()
      modifies this`file
      ensures Lineage() && file.Absent?
    {
      file := Absent;
    }

    /** Others may renumber at any await; the epoch only grows. */
    method Await()
      modifies this`epoch
      ensures old(epoch) <= epoch
    {
      var moved: nat :| epoch <= moved;
      epoch := moved;
    }

    /** Encode one row; None when its ids were read under a newer epoch. */
    method EncodeRow(r: Row, under: nat) returns (s: Option<Shipped>)
      requires r.dense && under <= epoch
      modifies this`epoch
      ensures old(epoch) <= epoch && (s.None? ==> under < epoch)
      ensures s.Some? ==> s.value == Code(r, under)
    {
      Await();
      var at := if r.terms then Some(epoch) else None;
      s := if at.Some? && at.value != under then None else Some(Shipped(r.id, at));
    }

    /** Encode a batch; None stops the run. */
    method Encode(rows: seq<Row>, under: nat) returns (payload: Option<seq<Shipped>>, ghost lost: seq<ChunkId>)
      requires Ascending(rows) && under <= epoch
      modifies this`epoch
      ensures old(epoch) <= epoch && (payload.None? ==> under < epoch)
      ensures payload.Some? ==> Coded(rows, payload.value, lost, under) && EachCoded(rows, payload.value, lost, under)
    {
      hide *;
      var sofar: seq<Shipped> := [];
      lost := [];
      var n := 0;
      NothingCoded(rows, under);
      while n < |rows|
        invariant n <= |rows| && old(epoch) <= epoch && Coding(rows, n, sofar, lost, under)
      {
        CodingNext(rows, n, sofar, lost, under);
        if rows[n].dense {
          var s := EncodeRow(rows[n], under);
          if s.None? { return None, lost; }
          sofar := sofar + [s.value];
        } else {
          lost := lost + [rows[n].id];
        }
        n := n + 1;
      }
      CodingEnds(rows, sofar, lost, under);
      payload := Some(sofar);
    }

    /** Ship a batch: whole, or row by row when the call raises.  Whatever of the
        batch it is, in whatever order, may have landed by then. */
    method Ship(payload: seq<Shipped>, under: nat)
      returns (ok: Option<nat>, ghost done: seq<ChunkId>, ghost lost: seq<ChunkId>)
      requires OneNumbering(payload, under) && Increasing(Landed(payload)) && InRun(under) && !around.stopped
      modifies this`epoch, this`shipped, around
      ensures ok.None? <==> around.stopped
      ensures old(around.refused) <= around.refused && AllIn(lost, around.refused)
      ensures old(epoch) <= epoch && Grew(old(shipped), shipped, Landed(payload)) && InRun(under)
      ensures ok.Some? ==> ok.value == |done| <= |payload| && Split(payload, done, lost) && Arrived(done, shipped)
    {
      var accepted := Offer(payload, under);
      hide *;
      ghost var was := shipped;
      var dead := around.Stops();
      if dead {
        NoneRefused(around.refused);
        return None, [], [];
      }
      if accepted {
        NoneRefused(around.refused);
        return Some(|payload|), Landed(payload), [];
      }
      ok, done, lost := ShipRows(payload, under);
      GrewTwice(old(shipped), was, shipped, Landed(payload));
    }

    /** The call for the whole batch: accepted, or raised with anything of it there. */
    method Offer(payload: seq<Shipped>, under: nat) returns (accepted: bool)
      requires OneNumbering(payload, under) && Increasing(Landed(payload)) && InRun(under)
      modifies this`epoch, this`shipped
      ensures old(epoch) <= epoch && Grew(old(shipped), shipped, Landed(payload)) && InRun(under)
      ensures accepted ==> Split(payload, Landed(payload), []) && Arrived(Landed(payload), shipped)
      ensures |Landed(payload)| == |payload|
    {
      var landed: seq<Shipped> := *;
      accepted := *;
      if accepted { landed := payload; }
      if !(forall s | s in landed :: s in payload) { landed := []; }
      LandedIds(landed, payload);
      LandWhole(payload);
      Land(landed, under);
      AwaitInRun(under);
      if accepted { ArrivedWhole(old(shipped), payload); }
    }

    /** The first `n` rows of a batch sent one by one. */
    ghost predicate Sending(payload: seq<Shipped>, n: nat, done: seq<ChunkId>, lost: seq<ChunkId>,
                            at: seq<Shipped>, under: nat)
      reads this, around`refused
    {
      && n <= |payload| && OneNumbering(payload, under) && Increasing(Landed(payload)) && InRun(under)
      && Split(payload[..n], done, lost) && Grew(at, shipped, Landed(payload))
      && Arrived(done, shipped) && AllIn(lost, around.refused)
    }

    lemma SendingStarts(payload: seq<Shipped>, under: nat)
      requires OneNumbering(payload, under) && Increasing(Landed(payload)) && InRun(under)
      ensures Sending(payload, 0, [], [], shipped, under)
    {
      assert payload[..0] == [] && Landed([]) == [];
    }

    lemma SendingEnds(payload: seq<Shipped>, n: nat, done: seq<ChunkId>, lost: seq<ChunkId>, at: seq<Shipped>,
                      under: nat)
      requires Sending(payload, n, done, lost, at, under)
      ensures InRun(under) && Grew(at, shipped, Landed(payload)) && AllIn(lost, around.refused)
      ensures n == |payload| ==> Split(payload, done, lost) && |done| <= |payload| && Arrived(done, shipped)
    {
      if n == |payload| { assert payload[..n] == payload; }
    }

    method ShipRows(payload: seq<Shipped>, under: nat) returns (ok: Option<nat>, ghost done: seq<ChunkId>,
                    ghost lost: seq<ChunkId>)
      requires OneNumbering(payload, under) && Increasing(Landed(payload)) && InRun(under) && !around.stopped
      modifies this`epoch, this`shipped, around
      ensures ok.None? <==> around.stopped
      ensures old(around.refused) <= around.refused && AllIn(lost, around.refused)
      ensures old(epoch) <= epoch && Grew(old(shipped), shipped, Landed(payload)) && InRun(under)
      ensures ok.Some? ==> ok.value == |done| <= |payload| && Split(payload, done, lost) && Arrived(done, shipped)
    {
      hide *;
      done, lost := [], [];
      var count := 0;
      ghost var at := shipped;
      SendingStarts(payload, under);
      var n := 0;
      ok := Some(0);
      while n < |payload| && ok.Some?
        invariant n <= |payload| && old(epoch) <= epoch && count == |done|
        invariant Sending(payload, n, done, lost, at, under) && old(around.refused) <= around.refused
        invariant ok.None? <==> around.stopped
      {
        var landed := SendNext(payload, n, done, lost, at, under);
        if landed {
          count, done := count + 1, done + [payload[n].id];
        } else {
          lost := lost + [payload[n].id];
        }
        n := n + 1;
        var dead := around.Stops();
        if dead { ok := None; }
      }
      SendingEnds(payload, n, done, lost, at, under);
      if ok.Some? { ok := Some(count); }
    }

    /** The next row of the batch, on its own. */
    method SendNext(payload: seq<Shipped>, n: nat, ghost done: seq<ChunkId>, ghost lost: seq<ChunkId>,
                    ghost at: seq<Shipped>, under: nat) returns (landed: bool)
      requires n < |payload| && Sending(payload, n, done, lost, at, under)
      modifies this`epoch, this`shipped, around`refused
      ensures old(epoch) <= epoch && old(around.refused) <= around.refused
      ensures if landed then Sending(payload, n + 1, done + [payload[n].id], lost, at, under)
              else Sending(payload, n + 1, done, lost + [payload[n].id], at, under)
    {
      hide Split, Increasing, OneNumbering, Landed, InRun, Arrived, Grew;
      ghost var was := shipped;
      SplitOne(payload, n, done, lost, under);
      landed := ShipRow(payload[n], under, done);
      GrewByRow(at, was, shipped, payload, n);
    }

    method ShipRow(row: Shipped, under: nat, ghost done: seq<ChunkId>) returns (landed: bool)
      requires OneNumbering([row], under) && InRun(under) && Arrived(done, shipped)
      modifies this`epoch, this`shipped, around`refused
      ensures around.refused == if landed then old(around.refused) else old(around.refused) + [row.id]
      ensures old(epoch) <= epoch && Grew(old(shipped), shipped, [row.id]) && InRun(under)
      ensures Arrived(if landed then done + [row.id] else done, shipped)
    {
      landed := around.Takes(row.id);
      var there := landed;
      if !landed { there := *; }          // refused, and yet it may have landed
      if there {
        ArrivedOne(done, shipped, row);
        ArrivedLater(done, shipped, [row]);
        Land([row], under);
      }
      AwaitInRun(under);
    }

    method AwaitInRun(under: nat)
      requires InRun(under)
      modifies this`epoch
      ensures InRun(under) && old(epoch) <= epoch
    {
      ghost var was := epoch;
      Await();
      BeganLater(starts, shipped, was, epoch);
    }

    method Land(rows: seq<Shipped>, under: nat)
      requires OneNumbering(rows, under) && InRun(under)
      modifies this`shipped
      ensures InRun(under) && shipped == old(shipped) + rows
    {
      BeganMore(starts, shipped, epoch, rows);
      shipped := shipped + rows;
    }

    /** The file says where the last checkpoint of this run stands, or what it said before. */
    ghost predicate FileSays(log: Log, under: nat, before: Progress)
      reads this
    {
      file == if keeps && log.checkpoint.Some? then At(log.checkpoint.value, Some(under)) else before
    }

    /** One batch of the loop: encode, ship, count, and checkpoint when due. */
    method Batch(batch: seq<Row>, under: nat, total: nat, every: nat, t: Tally, ghost log: Log, ghost before: Progress)
      returns (stopped: Option<Outcome>, t': Tally, payload: seq<Shipped>, ghost log': Log)
      requires InRun(under) && FileSays(log, under, before)
      requires Sound(t, log, every) && Ascending(log.rows + batch) && Arrived(log.done, shipped)
      requires !around.stopped && Excused(log, around.refused)
      modifies this`epoch, this`shipped, this`file, around
      ensures stopped == Some(Crashed) <==> around.stopped
      ensures stopped == Some(Renumbered) ==> under < epoch
      ensures old(around.refused) <= around.refused && Excused(log, around.refused)
      ensures stopped.None? ==> Excused(log', around.refused)
      ensures old(epoch) <= epoch && Grew(old(shipped), shipped, Ids(batch)) && InRun(under)
      ensures FileSays(if stopped.None? then log' else log, under, before)
      ensures stopped.Some? ==> stopped.value.Crashed? || (stopped.value.Renumbered? && shipped == old(shipped))
      ensures stopped.None? ==>
        && Sound(t', log', every) && log'.rows == log.rows + batch
        && t'.seen + t'.failed == t.seen + t.failed + |batch|
        && Forward(log.checkpoint, log'.checkpoint)
        && OneNumbering(payload, under) && Arrived(log'.done, shipped)
        && (payload != [] ==> payload[|payload| - 1].id in Ids(log'.rows))
        && log'.checkpoint == (if payload != [] && Due(t'.seen, |payload|, total, every)
                               then Some(payload[|payload| - 1].id) else log.checkpoint)
    {
      hide Ids, Landed, Ascending, Increasing, Bounded, Accounted, Arrived, InRun, Numbered, Split, Due, Grew;
      hide Excused, EachCoded, AllIn;
      GrewNot(shipped, Ids(batch));
      t', payload, log' := t, [], log;
      BatchAscends(log.rows, batch);
      var encoded, left := EncodeInRun(batch, under);
      if encoded.None? { return Some(Renumbered), t, [], log; }
      payload := encoded.value;
      CodedCounts(batch, payload, left, under);
      t' := Tally(t.seen, t.failed + (|batch| - |payload|));
      if payload == [] {
        log' := log.(rows := log.rows + batch, lost := log.lost + left);
        SoundSkips(t, t', log, every, batch, left, under);
        NoneRefused(around.refused);
        assert left + [] == left;
        ExcusedMore(log, log', around.refused, batch, payload, left, [], under);
        return None, t', payload, log';
      }
      var ok, done, lost := Ship(payload, under);
      CodedIds(batch, payload, left, under);
      GrewWider(old(shipped), shipped, Landed(payload), Ids(batch));
      ExcusedLater(log, old(around.refused), around.refused);
      if ok.None? { return Some(Crashed), t', payload, log; }
      ArrivedPrefix(log.done, old(shipped), shipped, Ids(batch));
      ArrivedBoth(log.done, done, shipped);
      LastInRows(log.rows, batch, payload, left, under);
      t' := Tally(t.seen + ok.value, t'.failed + (|payload| - ok.value));
      log' := Booked(log, batch, payload, left, done, lost, total, every);
      BookedSound(t, t', log, every, total, batch, payload, left, done, lost, under);
      BookedLost(log, batch, payload, left, done, lost, total, every);
      ExcusedMore(log, log', around.refused, batch, payload, left, lost, under);
      hide Coded, Sound;
      if Due(t'.seen, |payload|, total, every) && keeps {
        Pin(payload[|payload| - 1].id, under);
      }
      stopped := None;
    }

    method Pin(id: ChunkId, under: nat)
      requires InRun(under) && keeps
      modifies this`file
      ensures InRun(under) && file == At(id, Some(under))
    {
      file := At(id, Some(under));
    }

    method EncodeInRun(rows: seq<Row>, under: nat) returns (payload: Option<seq<Shipped>>, ghost lost: seq<ChunkId>)
      requires Ascending(rows) && InRun(under)
      modifies this`epoch
      ensures old(epoch) <= epoch && InRun(under) && (payload.None? ==> under < epoch)
      ensures payload.Some? ==> Coded(rows, payload.value, lost, under) && EachCoded(rows, payload.value, lost, under)
    {
      ghost var was := epoch;
      payload, lost := Encode(rows, under);
      BeganLater(starts, shipped, was, epoch);
    }

    /** `migrate`.  `counted` and `table` are the rows when they are counted and
        when the cursor opens.  A run that returns normally has accounted for every
        row, and everything shipped by it and by the runs it resumed from carries
        ids of one epoch, current at its end; the whole target does exactly when
        each start without a voucher found only ids of the epoch it began under.
        `sent` are the rows of the batches it began to ship, counted or not. */
    method Migrate(counted: seq<Row>, table: seq<Row>, batch: nat, dryRun: bool, every: nat)
      returns (outcome: Outcome, t: Tally, ghost log: Log, ghost sent: seq<Row>)
      requires Lineage() && Ascending(table) && batch > 0 && !around.stopped
      modifies this, around
      ensures Lineage() && old(epoch) <= epoch
      ensures Ran(RecordOf(table, old(file), file, log, sent)) && Grew(old(shipped), shipped, Ids(sent))
      ensures outcome.Crashed? <==> around.stopped
      ensures outcome.Renumbered? ==> if Vouched(old(file)) then old(file).epoch.value < epoch else old(epoch) < epoch
      ensures old(around.refused) <= around.refused && Excused(log, around.refused)
      ensures outcome.NothingPending? <==> Pending(counted, old(file)) == []
      ensures outcome.DryRun? <==> Pending(counted, old(file)) != [] && dryRun
      ensures outcome.NothingPending? || outcome.DryRun? ==> unchanged(`shipped) && unchanged(`file)
      ensures (outcome.NothingPending? || outcome.DryRun?) && Vouched(file) && AnyTerms(shipped[lineage..]) ==>
        (OneNumbering(shipped[lineage..], epoch) <==> file.epoch == Some(epoch))
      ensures !outcome.NothingPending? && !outcome.DryRun? ==>
        && Sound(t, log, every) && log.rows <= sent <= Pending(table, old(file)) && Arrived(log.done, shipped)
        && (file == old(file) || (file.At? && file.id in Ids(log.rows)))
      ensures outcome.Completed? ==>
        && log.rows == Pending(table, old(file)) && t.seen + t.failed == |log.rows|
        && OneNumbering(shipped[lineage..], epoch)
        && (OneNumbering(shipped, epoch) <==> CleanStarts(starts, shipped))
      ensures Vouched(old(file)) || outcome.NothingPending? || outcome.DryRun? ==>
        unchanged(`lineage) && unchanged(`starts)
      ensures !Vouched(old(file)) && !outcome.NothingPending? && !outcome.DryRun? ==>
        StartedHere(old(starts), starts, |old(shipped)|, old(epoch), epoch)
    {
      log := Log([], [], [], 0, None);
      t, sent := Tally(0, 0), [];
      EmptyBooks(every);
      GrewNot(shipped, Ids(sent));
      var pending := Pending(counted, file);
      Await();
      BeganLater(starts, shipped, old(epoch), epoch);
      match Open(file, |pending|, dryRun, epoch)
      case Refuse(why) =>
        outcome := why;
        VouchedIffCurrent();
        RunCovers(table, file, file, t, log, sent, every);
      case Go =>
        outcome, t, log, sent := Resume(table, |pending|, batch, every, epoch);
        RunCovers(table, old(file), file, t, log, sent, every);
    }

    /** With anything shipped under an epoch, the file's is the one to compare. */
    lemma VouchedIffCurrent()
      requires Lineage()
      ensures Vouched(file) && AnyTerms(shipped[lineage..]) ==>
        (OneNumbering(shipped[lineage..], epoch) <==> file.epoch == Some(epoch))
    {
      if Vouched(file) && AnyTerms(shipped[lineage..]) {
        var s :| s in shipped[lineage..] && s.epoch.Some?;
        assert Numbered(s, file.epoch.value);
      }
    }

    /** The run proper, once it may start: every row after the file's, under one epoch. */
    method Resume(table: seq<Row>, total: nat, batch: nat, every: nat, under: nat)
      returns (outcome: Outcome, t: Tally, ghost log: Log, ghost sent: seq<Row>)
      requires Lineage() && Ascending(table) && batch > 0 && under == epoch
      requires Vouched(file) ==> file.epoch == Some(under)
      requires !around.stopped
      modifies this, around
      ensures Lineage() && old(epoch) <= epoch
      ensures Sound(t, log, every) && log.rows <= sent <= Pending(table, old(file))
      ensures Grew(old(shipped), shipped, Ids(sent)) && Arrived(log.done, shipped)
      ensures file == old(file) || (file.At? && file.id in Ids(log.rows))
      ensures outcome.Completed? || outcome.Renumbered? || outcome.Crashed?
      ensures (outcome.Crashed? <==> around.stopped) && (outcome.Renumbered? ==> under < epoch)
      ensures old(around.refused) <= around.refused && Excused(log, around.refused)
      ensures outcome.Completed? ==>
        && log.rows == Pending(table, old(file)) && t.seen + t.failed == |log.rows|
        && OneNumbering(shipped[lineage..], epoch)
        && (OneNumbering(shipped, epoch) <==> CleanStarts(starts, shipped))
      ensures if Vouched(old(file)) then unchanged(`lineage) && unchanged(`starts)
              else starts == old(starts) + [Start(|old(shipped)|, under)]
    {
      hide *;
      log := Log([], [], [], 0, None);
      t := Tally(0, 0);
      EmptyBooks(every);
      NothingLost(shipped);
      PendingAscends(table, file);
      Enter(under);
      EmptySays(under);
      var cursor := new RowCursor(Pending(table, file));
      var payload: seq<Shipped>;
      outcome, t, payload, log, sent := Batches(cursor, batch, under, total, every, t, log, file);
      KeptGives(under, t, log, every, old(file), old(shipped), sent);
      LeaveFile(t, log, every, under, old(file));
      if outcome.Completed? {
        outcome := Finish(t.seen, payload, under);
      } else {
        LeaveRun(under);
      }
    }

    lemma EmptySays(under: nat)
      ensures FileSays(Log([], [], [], 0, None), under, file) && Excused(Log([], [], [], 0, None), around.refused)
    {
    }

    /** The last checkpoint, and then the last look at the epoch. */
    method Finish(seen: nat, payload: seq<Shipped>, under: nat) returns (outcome: Outcome)
      requires InRun(under) && !around.stopped
      modifies this`epoch, this`file, around`stopped
      ensures Lineage() && old(epoch) <= epoch
      ensures outcome.Completed? || outcome.Renumbered? || outcome.Crashed?
      ensures (outcome.Crashed? <==> around.stopped) && (outcome.Renumbered? ==> under < epoch)
      ensures outcome.Completed? ==>
        OneNumbering(shipped[lineage..], epoch) && (OneNumbering(shipped, epoch) <==> CleanStarts(starts, shipped))
      ensures file ==
                if seen > 0 && payload != [] && keeps then At(payload[|payload| - 1].id, Some(under)) else old(file)
    {
      if seen > 0 && payload != [] && keeps { Pin(payload[|payload| - 1].id, under); }
      AwaitInRun(under);
      LeaveRun(under);
      var dead := around.Stops();
      if dead { return Crashed; }
      if epoch != under { return Renumbered; }
      WholeIffCleanStarts(starts, shipped, lineage, epoch);
      outcome := Completed;
    }

    /** What the run answers for begins here, unless the file vouches for more. */
    method Enter(under: nat)
      requires Lineage() && under == epoch && (Vouched(file) ==> file.epoch == Some(under))
      modifies this`lineage, this`starts
      ensures InRun(under)
      ensures if Vouched(file) then unchanged(this) else starts == old(starts) + [Start(|shipped|, under)]
    {
      if !Vouched(file) {
        BeganHere(starts, shipped, epoch);
        starts := starts + [Start(|shipped|, under)];
        lineage := |shipped|;
      }
    }

    lemma LeaveRun(under: nat)
      requires InRun(under)
      ensures Lineage() && under <= epoch && OneNumbering(shipped[lineage..], under)
    {
    }

    lemma LeaveFile(t: Tally, log: Log, every: nat, under: nat, before: Progress)
      requires Sound(t, log, every) && FileSays(log, under, before)
      ensures file == before || (file.At? && file.id in Ids(log.rows))
    {
    }

    /** What the loop keeps, with `sent` the rows it has begun to ship. */
    ghost predicate Kept(under: nat, t: Tally, log: Log, every: nat, before: Progress, at: seq<Shipped>, sent: seq<Row>)
      reads this, around`refused
    {
      && InRun(under) && FileSays(log, under, before) && Sound(t, log, every) && Excused(log, around.refused)
      && t.seen + t.failed == |log.rows| && Grew(at, shipped, Ids(sent)) && Arrived(log.done, shipped)
    }

    /** One batch, in which the run may die: before any of it is shipped, or midway. */
    method Step(rows: seq<Row>, under: nat, total: nat, every: nat, t: Tally, ghost log: Log, ghost before: Progress,
                ghost at: seq<Shipped>)
      returns (stopped: Option<Outcome>, t': Tally, payload: seq<Shipped>, ghost log': Log, ghost sent: seq<Row>)
      requires Kept(under, t, log, every, before, at, log.rows) && Ascending(log.rows + rows) && !around.stopped
      modifies this`epoch, this`shipped, this`file, around
      ensures stopped == Some(Crashed) <==> around.stopped
      ensures stopped == Some(Renumbered) ==> under < epoch
      ensures old(around.refused) <= around.refused
      ensures old(epoch) <= epoch
      ensures Kept(under, t', log', every, before, at, sent)
      ensures stopped.None? ==> log'.rows == sent == log.rows + rows
      ensures stopped.Some? ==> log' == log && (sent == log.rows || sent == log.rows + rows)
      ensures stopped.Some? ==> stopped.value.Renumbered? || stopped.value.Crashed?
      ensures stopped.None? && payload != [] ==> payload[|payload| - 1].id in Ids(log'.rows)
    {
      hide InRun, FileSays, Sound, Grew, Ids, Arrived, Ascending, Excused;
      var dead := around.Stops();
      if dead { return Some(Crashed), t, [], log, log.rows; }
      ghost var was := shipped;
      stopped, t', payload, log' := Batch(rows, under, total, every, t, log, before);
      GrewByBatch(at, was, shipped, log.rows, rows);
      if stopped.Some? {
        ArrivedPrefix(log.done, was, shipped, Ids(rows));
        t', log' := t, log;
      }
      sent := if stopped == Some(Renumbered) then log.rows else log.rows + rows;
    }

    lemma KeptStart(under: nat, t: Tally, log: Log, every: nat, before: Progress)
      requires InRun(under) && FileSays(log, under, before) && Sound(t, log, every)
      requires t.seen + t.failed == |log.rows| && Arrived(log.done, shipped) && Excused(log, around.refused)
      ensures Kept(under, t, log, every, before, shipped, log.rows)
    {
    }

    lemma KeptGives(under: nat, t: Tally, log: Log, every: nat, before: Progress, at: seq<Shipped>, sent: seq<Row>)
      requires Kept(under, t, log, every, before, at, sent)
      ensures InRun(under) && FileSays(log, under, before) && Sound(t, log, every) && Excused(log, around.refused)
      ensures t.seen + t.failed == |log.rows| && Grew(at, shipped, Ids(sent)) && Arrived(log.done, shipped)
    {
    }

    /** The loop of the run: one batch after another until the cursor is empty.  It
        may die anywhere. */
    method Batches(cursor: RowCursor, batch: nat, under: nat, total: nat, every: nat, t0: Tally, ghost log0: Log,
                   ghost before: Progress)
      returns (outcome: Outcome, t: Tally, payload: seq<Shipped>, ghost log: Log, ghost sent: seq<Row>)
      requires InRun(under) && FileSays(log0, under, before) && Sound(t0, log0, every) && batch > 0
      requires log0.rows == [] && t0 == Tally(0, 0) && Ascending(cursor.rest) && Arrived(log0.done, shipped)
      requires !around.stopped && Excused(log0, around.refused)
      modifies this`epoch, this`shipped, this`file, cursor, around
      ensures (outcome.Crashed? <==> around.stopped) && (outcome.Renumbered? ==> under < epoch)
      ensures old(around.refused) <= around.refused
      ensures old(epoch) <= epoch && Kept(under, t, log, every, before, old(shipped), sent)
      ensures outcome.Completed? || outcome.Renumbered? || outcome.Crashed?
      ensures log.rows <= sent <= old(cursor.rest)
      ensures outcome.Completed? && payload != [] ==> payload[|payload| - 1].id in Ids(log.rows)
      ensures outcome.Completed? ==> log.rows == old(cursor.rest)
    {
      hide *;
      t, payload, log, sent := t0, [], log0, log0.rows;
      ghost var all, at := cursor.rest, shipped;
      KeptStart(under, t, log, every, before);
      ReadNone(all);
      while true
        invariant old(epoch) <= epoch && Kept(under, t, log, every, before, at, sent) && sent == log.rows
        invariant payload != [] ==> payload[|payload| - 1].id in Ids(log.rows)
        invariant Read(all, log.rows, cursor.rest)
        invariant !around.stopped && old(around.refused) <= around.refused
        decreases |cursor.rest|
      {
        ReadGives(all, log.rows, cursor.rest);
        ghost var rest := cursor.rest;
        var rows := NextBatch(cursor, batch);
        if rows == [] {
          outcome := Completed;
          return;
        }
        ReadMore(all, log.rows, rows, cursor.rest, rest);
        var stopped;
        stopped, t, payload, log, sent := Step(rows, under, total, every, t, log, before, at);
        if stopped.Some? {
          outcome := stopped.value;
          return;
        }
      }
    }

    /** While a run goes on: what it and those it resumed from have shipped is
        under one epoch, and so is the file. */
    ghost predicate InRun(under: nat)
      reads this
    {
      && lineage <= |shipped| && under <= epoch && OneNumbering(shipped[lineage..], under)
      && (!keeps ==> file.Absent?) && Began(starts, shipped, epoch) && LastStart(starts, lineage, under)
      && (file.At? && file.epoch.Some? ==> file.epoch.value == under)
    }
  }

  /** What the cursor had: the rows read, and those to come. */
  ghost predicate Read(all: seq<Row>, rows: seq<Row>, rest: seq<Row>) {
    rows + rest == all
  }

  lemma ReadNone(all: seq<Row>)
    ensures Read(all, [], all)
  {
  }

  lemma ReadGives(all: seq<Row>, rows: seq<Row>, rest: seq<Row>)
    requires Read(all, rows, rest)
    ensures rows <= all && (rest == [] ==> rows == all)
  {
  }

  lemma ReadMore(all: seq<Row>, rows: seq<Row>, batch: seq<Row>, rest: seq<Row>, before: seq<Row>)
    requires Read(all, rows, before) && batch + rest == before && Ascending(all)
    ensures Read(all, rows + batch, rest) && Ascending(rows + batch) && rows + batch <= all
  {
    assert (rows + batch) + rest == all;
    BatchAscends(rows + batch, rest);
  }

  /** A start without a voucher joins those before it. */
  ghost predicate StartedHere(before: seq<Start>, starts: seq<Start>, at: nat, from: nat, to: nat) {
    exists epoch | from <= epoch <= to :: starts == before + [Start(at, epoch)]
  }

  /** A batch encoded: each row in the payload, under the one epoch, or left out. */
  ghost predicate Coded(rows: seq<Row>, payload: seq<Shipped>, lost: seq<ChunkId>, under: nat) {
    && OneNumbering(payload, under)
    && multiset(Landed(payload)) + multiset(lost) == multiset(Ids(rows))
    && Increasing(Landed(payload))
  }

  lemma CodedFrom(rows: seq<Row>, payload: seq<Shipped>, lost: seq<ChunkId>, under: nat, k: ChunkId) returns (i: nat)
    requires Coded(rows, payload, lost, under) && k in Landed(payload)
    ensures i < |rows| && rows[i].id == k
  {
    assert k in multiset(Landed(payload)) + multiset(lost);
    assert k in Ids(rows);
    i :| 0 <= i < |Ids(rows)| && Ids(rows)[i] == k;
  }

  /** The first `n` rows of a batch encoded. */
  ghost predicate Coding(rows: seq<Row>, n: nat, payload: seq<Shipped>, lost: seq<ChunkId>, under: nat) {
    && n <= |rows| && Ascending(rows)
    && Coded(rows[..n], payload, lost, under) && EachCoded(rows[..n], payload, lost, under)
  }

  lemma NothingCoded(rows: seq<Row>, under: nat)
    requires Ascending(rows)
    ensures Coding(rows, 0, [], [], under)
  {
    assert rows[..0] == [];
  }

  lemma CodingEnds(rows: seq<Row>, payload: seq<Shipped>, lost: seq<ChunkId>, under: nat)
    requires Coding(rows, |rows|, payload, lost, under)
    ensures Coded(rows, payload, lost, under) && EachCoded(rows, payload, lost, under)
  {
    assert rows[..|rows|] == rows;
  }

  lemma CodingNext(rows: seq<Row>, n: nat, payload: seq<Shipped>, lost: seq<ChunkId>, under: nat)
    requires Coding(rows, n, payload, lost, under) && n < |rows|
    ensures !rows[n].dense ==> Coding(rows, n + 1, payload, lost + [rows[n].id], under)
    ensures rows[n].dense ==> Coding(rows, n + 1, payload + [Code(rows[n], under)], lost, under)
  {
    var r := rows[n];
    assert rows[..n + 1] == rows[..n] + [r];
    PrefixAscends(rows, n + 1);
    hide Coded, EachCoded, Ascending;
    EachCodedMore(rows[..n], r, payload, lost, under);
    if r.dense {
      CodedOne(rows[..n], r, payload, lost, under, Code(r, under));
    } else {
      CodedLost(rows[..n], r, payload, lost, under);
    }
  }

  lemma PrefixAscends(rows: seq<Row>, n: nat)
    requires Ascending(rows) && n <= |rows|
    ensures Ascending(rows[..n])
  {
  }

  lemma CodedIds(rows: seq<Row>, payload: seq<Shipped>, lost: seq<ChunkId>, under: nat)
    requires Coded(rows, payload, lost, under)
    ensures forall k | k in Landed(payload) :: k in Ids(rows)
  {
    MultisetIn(Landed(payload), lost, Ids(rows));
  }

  lemma LandedIds(landed: seq<Shipped>, payload: seq<Shipped>)
    requires forall s | s in landed :: s in payload
    ensures forall s | s in landed :: s.id in Landed(payload)
  {
    forall s | s in landed ensures s.id in Landed(payload) {
      var i :| 0 <= i < |payload| && payload[i] == s;
      assert Landed(payload)[i] == s.id;
    }
  }

  lemma CodedLost(rows: seq<Row>, r: Row, payload: seq<Shipped>, lost: seq<ChunkId>, under: nat)
    requires Coded(rows, payload, lost, under)
    ensures Coded(rows + [r], payload, lost + [r.id], under)
  {
    IdsSplit(rows, [r]);
  }

  lemma LastIsHighest(rows: seq<Row>, r: Row, payload: seq<Shipped>, lost: seq<ChunkId>, under: nat)
    requires Coded(rows, payload, lost, under) && Ascending(rows + [r])
    ensures forall i | 0 <= i < |payload| :: Landed(payload)[i] < r.id
  {
    forall i | 0 <= i < |payload| ensures Landed(payload)[i] < r.id {
      var n := CodedFrom(rows, payload, lost, under, Landed(payload)[i]);
      assert (rows + [r])[n].id < (rows + [r])[|rows|].id;
    }
  }

  lemma IncreasingGrows(s: seq<ChunkId>, k: ChunkId)
    requires Increasing(s) && forall i | 0 <= i < |s| :: s[i] < k
    ensures Increasing(s + [k])
  {
  }

  lemma NumberingGrows(payload: seq<Shipped>, s: Shipped, under: nat)
    requires OneNumbering(payload, under) && Numbered(s, under)
    ensures OneNumbering(payload + [s], under)
  {
  }

  lemma MultisetMoves(a: seq<ChunkId>, b: seq<ChunkId>, c: seq<ChunkId>, k: ChunkId)
    requires multiset(a) + multiset(b) == multiset(c)
    ensures multiset(a + [k]) + multiset(b) == multiset(c + [k])
  {
  }

  lemma MultisetMovesRight(a: seq<ChunkId>, b: seq<ChunkId>, c: seq<ChunkId>, k: ChunkId)
    requires multiset(a) + multiset(b) == multiset(c)
    ensures multiset(a) + multiset(b + [k]) == multiset(c + [k])
  {
  }

  lemma CodedOne(rows: seq<Row>, r: Row, payload: seq<Shipped>, lost: seq<ChunkId>, under: nat, s: Shipped)
    requires Coded(rows, payload, lost, under) && Ascending(rows + [r]) && s.id == r.id && Numbered(s, under)
    ensures Coded(rows + [r], payload + [s], lost, under)
  {
    LastIsHighest(rows, r, payload, lost, under);
    IdsSplit(rows, [r]);
    LandedSplit(payload, [s]);
    assert Landed([s]) == [s.id] && Ids([r]) == [r.id];
    hide Ids, Landed, Ascending;
    NumberingGrows(payload, s, under);
    IncreasingGrows(Landed(payload), r.id);
    MultisetMoves(Landed(payload), lost, Ids(rows), r.id);
  }

  lemma {:induction false} LandedSplit(a: seq<Shipped>, b: seq<Shipped>)
    ensures Landed(a + b) == Landed(a) + Landed(b)
  {
  }

  function Landed(s: seq<Shipped>): (r: seq<ChunkId>)
    ensures |r| == |s| && forall i | 0 <= i < |s| :: r[i] == s[i].id
  {
    if s == [] then [] else Landed(s[..|s| - 1]) + [s[|s| - 1].id]
  }

  /** Each row of a payload shipped or given up. */
  ghost predicate Split(payload: seq<Shipped>, done: seq<ChunkId>, lost: seq<ChunkId>) {
    && multiset(done) + multiset(lost) == multiset(Landed(payload))
    && Increasing(done)
    && |done| <= |payload|
  }

  lemma LandWhole(payload: seq<Shipped>)
    requires Increasing(Landed(payload))
    ensures Split(payload, Landed(payload), [])
  {
  }

  lemma SplitBelow(payload: seq<Shipped>, n: nat, done: seq<ChunkId>, lost: seq<ChunkId>)
    requires n < |payload| && Split(payload[..n], done, lost) && Increasing(Landed(payload))
    ensures forall i | 0 <= i < |done| :: done[i] < payload[n].id
  {
    forall i | 0 <= i < |done| ensures done[i] < payload[n].id {
      var m := SplitFrom(payload[..n], done, lost, done[i]);
      assert Landed(payload)[m] < Landed(payload)[n];
    }
  }

  lemma LandedNext(payload: seq<Shipped>, n: nat)
    requires n < |payload|
    ensures Landed(payload[..n + 1]) == Landed(payload[..n]) + [payload[n].id]
  {
    assert payload[..n + 1] == payload[..n] + [payload[n]];
    LandedSplit(payload[..n], [payload[n]]);
  }

  lemma SplitOne(payload: seq<Shipped>, n: nat, done: seq<ChunkId>, lost: seq<ChunkId>, under: nat)
    requires n < |payload| && Split(payload[..n], done, lost)
    requires Increasing(Landed(payload)) && OneNumbering(payload, under)
    ensures Split(payload[..n + 1], done + [payload[n].id], lost)
    ensures Split(payload[..n + 1], done, lost + [payload[n].id])
    ensures OneNumbering([payload[n]], under)
  {
    var k := payload[n].id;
    SplitBelow(payload, n, done, lost);
    LandedNext(payload, n);
    IncreasingGrows(done, k);
    hide Landed, Increasing;
    MultisetMoves(done, lost, Landed(payload[..n]), k);
    MultisetMovesRight(done, lost, Landed(payload[..n]), k);
  }

  lemma SplitFrom(payload: seq<Shipped>, done: seq<ChunkId>, lost: seq<ChunkId>, k: ChunkId) returns (m: nat)
    requires Split(payload, done, lost) && k in done
    ensures m < |payload| && payload[m].id == k
  {
    assert k in multiset(done) + multiset(lost);
    assert k in Landed(payload);
    m :| 0 <= m < |Landed(payload)| && Landed(payload)[m] == k;
  }

  // ── Keeping the books ────────────────────────────────────────────

  lemma BatchAscends(rows: seq<Row>, batch: seq<Row>)
    requires Ascending(rows + batch)
    ensures Ascending(rows) && Ascending(batch)
  {
    forall i, j | 0 <= i < j < |batch| ensures batch[i].id < batch[j].id {
      assert (rows + batch)[|rows| + i].id < (rows + batch)[|rows| + j].id;
    }
    forall i, j | 0 <= i < j < |rows| ensures rows[i].id < rows[j].id {
      assert (rows + batch)[i].id < (rows + batch)[j].id;
    }
  }

  lemma CodedCounts(rows: seq<Row>, payload: seq<Shipped>, lost: seq<ChunkId>, under: nat)
    requires Coded(rows, payload, lost, under)
    ensures |payload| + |lost| == |rows|
  {
    assert |multiset(Landed(payload)) + multiset(lost)| == |payload| + |lost|;
    assert |multiset(Ids(rows))| == |rows|;
  }

  lemma IdBelow(rows: seq<Row>, batch: seq<Row>, a: ChunkId, b: ChunkId)
    requires Ascending(rows + batch) && a in Ids(rows) && b in Ids(batch)
    ensures a < b
  {
    var i :| 0 <= i < |Ids(rows)| && Ids(rows)[i] == a;
    var j :| 0 <= j < |Ids(batch)| && Ids(batch)[j] == b;
    assert (rows + batch)[i].id < (rows + batch)[|rows| + j].id;
  }

  lemma MultisetIn(a: seq<ChunkId>, b: seq<ChunkId>, c: seq<ChunkId>)
    requires multiset(a) + multiset(b) == multiset(c)
    ensures forall k | k in a :: k in c
    ensures forall k | k in b :: k in c
    ensures |a| + |b| == |c|
  {
    forall k | k in a ensures k in c { assert k in multiset(a) + multiset(b); }
    forall k | k in b ensures k in c { assert k in multiset(a) + multiset(b); }
    assert |multiset(a) + multiset(b)| == |a| + |b| && |multiset(c)| == |c|;
  }

  lemma MultisetsJoin(a: seq<ChunkId>, b: seq<ChunkId>, c: seq<ChunkId>,
                      a': seq<ChunkId>, b': seq<ChunkId>, c': seq<ChunkId>)
    requires multiset(a) + multiset(b) == multiset(c) && multiset(a') + multiset(b') == multiset(c')
    ensures multiset(a + a') + multiset(b + b') == multiset(c + c')
  {
    calc {
      multiset(a + a') + multiset(b + b');
      (multiset(a) + multiset(b)) + (multiset(a') + multiset(b'));
      multiset(c + c');
    }
  }

  /** A batch shipped and given up, as one: what was left out joins what failed. */
  lemma BatchSplits(batch: seq<Row>, payload: seq<Shipped>, left: seq<ChunkId>,
                    done: seq<ChunkId>, lost: seq<ChunkId>, under: nat)
    requires Coded(batch, payload, left, under) && Split(payload, done, lost)
    ensures multiset(done) + multiset(left + lost) == multiset(Ids(batch)) && Increasing(done)
    ensures forall k | k in done :: k in Landed(payload)
    ensures forall k | k in Landed(payload) :: k in Ids(batch)
    ensures forall i | 0 <= i < |done| :: done[i] in Ids(batch)
  {
    MultisetIn(done, lost, Landed(payload));
    MultisetIn(Landed(payload), left, Ids(batch));
    calc {
      multiset(done) + multiset(left + lost);
      (multiset(done) + multiset(lost)) + multiset(left);
      multiset(Ids(batch));
    }
  }

  /** Books kept over one more batch. */
  lemma AccountedGrows(t: Tally, t1: Tally, log: Log, batch: seq<Row>, done: seq<ChunkId>, lost: seq<ChunkId>)
    requires Accounted(t, log) && Ascending(log.rows + batch) && Increasing(done)
    requires multiset(done) + multiset(lost) == multiset(Ids(batch))
    requires t1.seen == t.seen + |done| && t1.failed == t.failed + |lost|
    ensures Accounted(t1, log.(rows := log.rows + batch, done := log.done + done, lost := log.lost + lost))
  {
    IdsSplit(log.rows, batch);
    MultisetsJoin(log.done, log.lost, Ids(log.rows), done, lost, Ids(batch));
    MultisetIn(log.done, log.lost, Ids(log.rows));
    MultisetIn(done, lost, Ids(batch));
    var all := log.done + done;
    forall i, j | 0 <= i < j < |all| ensures all[i] < all[j] {
      if i < |log.done| <= j { IdBelow(log.rows, batch, log.done[i], done[j - |log.done|]); }
    }
  }

  lemma BatchAbove(log: Log, batch: seq<Row>, done: seq<ChunkId>)
    requires Ascending(log.rows + batch) && log.checkpoint.Some? && log.checkpoint.value in Ids(log.rows)
    requires forall i | 0 <= i < |done| :: done[i] in Ids(batch)
    ensures AllAbove(done, log.checkpoint.value)
  {
    forall i | 0 <= i < |done| ensures done[i] > log.checkpoint.value {
      IdBelow(log.rows, batch, log.checkpoint.value, done[i]);
    }
  }

  lemma BoundedGrows(log: Log, every: nat, batch: seq<Row>, done: seq<ChunkId>, lost: seq<ChunkId>)
    requires Bounded(log, every) && Ascending(log.rows + batch)
    requires forall i | 0 <= i < |done| :: done[i] in Ids(batch)
    requires Quotient(|log.done|, every) == Quotient(|log.done| + |done|, every)
    ensures Bounded(log.(rows := log.rows + batch, done := log.done + done, lost := lost), every)
  {
    hide Quotient, Ids, Ascending, AllAtMost, AllAbove;
    SameQuotient(log.marked, |log.done| + |done|, every);
    IdsSplit(log.rows, batch);
    SplitDone(log.done, done, log.marked);
    if log.checkpoint.Some? {
      BatchAbove(log, batch, done);
      AboveJoins(log.done[log.marked..], done, log.checkpoint.value);
      assert log.checkpoint.value in Ids(log.rows + batch);
    }
  }

  lemma SplitDone(a: seq<ChunkId>, b: seq<ChunkId>, n: nat)
    requires n <= |a|
    ensures (a + b)[..n] == a[..n] && (a + b)[n..] == a[n..] + b
  {
  }

  lemma AboveJoins(a: seq<ChunkId>, b: seq<ChunkId>, bound: ChunkId)
    requires AllAbove(a, bound) && AllAbove(b, bound)
    ensures AllAbove(a + b, bound)
  {
  }

  lemma LeftOut(batch: seq<Row>, left: seq<ChunkId>, under: nat)
    requires Coded(batch, [], left, under)
    ensures |left| == |batch| && multiset([]) + multiset(left) == multiset(Ids(batch))
  {
    CodedCounts(batch, [], left, under);
    assert Landed([]) == [];
  }

  lemma SoundSkips(t: Tally, t1: Tally, log: Log, every: nat, batch: seq<Row>, left: seq<ChunkId>, under: nat)
    requires Sound(t, log, every) && Ascending(log.rows + batch) && Coded(batch, [], left, under)
    requires t1 == Tally(t.seen, t.failed + |batch|)
    ensures Sound(t1, log.(rows := log.rows + batch, lost := log.lost + left), every)
  {
    LeftOut(batch, left, under);
    assert Increasing([]) && log.done + [] == log.done;
    hide Coded, Ids, Ascending, Bounded, Accounted, Quotient, Increasing;
    AccountedGrows(t, t1, log, batch, [], left);
    if every > 0 { BoundedGrows(log, every, batch, [], log.lost + left); }
  }

  /** The books after a batch, with its checkpoint when one is due. */
  ghost function Booked(log: Log, batch: seq<Row>, payload: seq<Shipped>, left: seq<ChunkId>,
                        done: seq<ChunkId>, lost: seq<ChunkId>, total: nat, every: nat): Log
    requires payload != []
  {
    var log1 := log.(rows := log.rows + batch, done := log.done + done, lost := log.lost + (left + lost));
    if Due(|log1.done|, |payload|, total, every)
    then log1.(marked := |log1.done|, checkpoint := Some(payload[|payload| - 1].id))
    else log1
  }

  lemma BookedSound(t: Tally, t1: Tally, log: Log, every: nat, total: nat, batch: seq<Row>, payload: seq<Shipped>,
                    left: seq<ChunkId>, done: seq<ChunkId>, lost: seq<ChunkId>, under: nat)
    requires Sound(t, log, every) && Ascending(log.rows + batch) && payload != []
    requires Coded(batch, payload, left, under) && Split(payload, done, lost)
    requires t1.seen == t.seen + |done| && t1.seen + t1.failed == t.seen + t.failed + |batch|
    ensures |log.done| == t.seen
    ensures var log' := Booked(log, batch, payload, left, done, lost, total, every);
      Sound(t1, log', every) && Forward(log.checkpoint, log'.checkpoint)
  {
    ShippedCounts(batch, payload, left, done, lost, under);
    DoneIsRead(t, log);
    hide Coded, Split, Ids, Landed, Increasing, Ascending, Bounded, Accounted;
    AccountedGrows(t, t1, log, batch, done, left + lost);
    BookedAccounted(t1, log, batch, payload, left, done, lost, total, every);
    if every > 0 { BookedBounded(log, every, total, batch, payload, left, done, lost, under); }
  }

  lemma BookedLost(log: Log, batch: seq<Row>, payload: seq<Shipped>, left: seq<ChunkId>,
                   done: seq<ChunkId>, lost: seq<ChunkId>, total: nat, every: nat)
    requires payload != []
    ensures var log' := Booked(log, batch, payload, left, done, lost, total, every);
      log'.rows == log.rows + batch && log'.lost == log.lost + (left + lost)
  {
  }

  lemma NoneRefused(refused: seq<ChunkId>)
    ensures AllIn([], refused)
  {
  }

  /** A checkpoint changes no account. */
  lemma BookedAccounted(t: Tally, log: Log, batch: seq<Row>, payload: seq<Shipped>, left: seq<ChunkId>,
                        done: seq<ChunkId>, lost: seq<ChunkId>, total: nat, every: nat)
    requires payload != []
    requires Accounted(t, log.(rows := log.rows + batch, done := log.done + done, lost := log.lost + (left + lost)))
    ensures Accounted(t, Booked(log, batch, payload, left, done, lost, total, every))
    ensures Booked(log, batch, payload, left, done, lost, total, every).rows == log.rows + batch
  {
  }

  lemma DoneIsRead(t: Tally, log: Log)
    requires Accounted(t, log)
    ensures |log.done| == t.seen && forall k | k in log.done :: k in Ids(log.rows)
  {
    MultisetIn(log.done, log.lost, Ids(log.rows));
  }

  /** A batch as the books see it. */
  lemma ShippedCounts(batch: seq<Row>, payload: seq<Shipped>, left: seq<ChunkId>,
                      done: seq<ChunkId>, lost: seq<ChunkId>, under: nat)
    requires Coded(batch, payload, left, under) && Split(payload, done, lost) && payload != []
    ensures |done| + |lost| == |payload| && |payload| + |left| == |batch|
    ensures multiset(done) + multiset(left + lost) == multiset(Ids(batch)) && Increasing(done)
    ensures Increasing(Landed(payload)) && Landed(payload)[|payload| - 1] == payload[|payload| - 1].id
    ensures (forall k | k in done :: k in Landed(payload)) && (forall k | k in Landed(payload) :: k in Ids(batch))
    ensures forall i | 0 <= i < |done| :: done[i] in Ids(batch)
  {
    CodedCounts(batch, payload, left, under);
    MultisetIn(done, lost, Landed(payload));
    BatchSplits(batch, payload, left, done, lost, under);
  }

  lemma BookedBounded(log: Log, every: nat, total: nat, batch: seq<Row>, payload: seq<Shipped>,
                      left: seq<ChunkId>, done: seq<ChunkId>, lost: seq<ChunkId>, under: nat)
    requires Bounded(log, every) && Ascending(log.rows + batch) && payload != []
    requires forall k | k in log.done :: k in Ids(log.rows)
    requires Coded(batch, payload, left, under) && Split(payload, done, lost)
    ensures var log' := Booked(log, batch, payload, left, done, lost, total, every);
      Bounded(log', every) && Forward(log.checkpoint, log'.checkpoint)
  {
    ShippedCounts(batch, payload, left, done, lost, under);
    hide Coded, Split, Ids, Landed, Increasing, Ascending, Quotient, Bounded, Due;
    if Due(|log.done| + |done|, |payload|, total, every) {
      MarkBounds(log, every, batch, Landed(payload), done, log.lost + (left + lost));
    } else {
      CrossingIsDue(|log.done|, |log.done| + |done|, |payload|, total, every);
      BoundedGrows(log, every, batch, done, log.lost + (left + lost));
    }
  }

  lemma DoneAtMost(log: Log, batch: seq<Row>, landed: seq<ChunkId>, done: seq<ChunkId>)
    requires Ascending(log.rows + batch) && landed != [] && Increasing(landed)
    requires (forall k | k in done :: k in landed) && landed[|landed| - 1] in Ids(batch)
    requires forall k | k in log.done :: k in Ids(log.rows)
    ensures AllAtMost(log.done + done, landed[|landed| - 1])
  {
    var all := log.done + done;
    forall i | 0 <= i < |all| ensures all[i] <= landed[|landed| - 1] {
      if i < |log.done| {
        IdBelow(log.rows, batch, log.done[i], landed[|landed| - 1]);
      } else {
        LastIsMax(landed, done[i - |log.done|]);
      }
    }
  }

  lemma LastIsMax(s: seq<ChunkId>, k: ChunkId)
    requires Increasing(s) && k in s
    ensures k <= s[|s| - 1]
  {
    var i :| 0 <= i < |s| && s[i] == k;
  }

  lemma MarkBounds(log: Log, every: nat, batch: seq<Row>, landed: seq<ChunkId>, done: seq<ChunkId>, lost: seq<ChunkId>)
    requires Bounded(log, every) && Ascending(log.rows + batch) && landed != [] && Increasing(landed)
    requires (forall k | k in done :: k in landed) && (forall k | k in landed :: k in Ids(batch))
    requires forall k | k in log.done :: k in Ids(log.rows)
    ensures var last := landed[|landed| - 1];
      && Forward(log.checkpoint, Some(last))
      && Bounded(Log(log.rows + batch, log.done + done, lost, |log.done| + |done|, Some(last)), every)
  {
    hide Quotient, Ids, Ascending, Increasing, AllAtMost, AllAbove;
    var last := landed[|landed| - 1];
    assert last in landed;
    DoneAtMost(log, batch, landed, done);
    if log.checkpoint.Some? { IdBelow(log.rows, batch, log.checkpoint.value, last); }
    IdsSplit(log.rows, batch);
    MarkHere(log.rows + batch, log.done + done, lost, last, every);
  }

  lemma MarkHere(rows: seq<Row>, done: seq<ChunkId>, lost: seq<ChunkId>, last: ChunkId, every: nat)
    requires every > 0 && last in Ids(rows) && AllAtMost(done, last)
    ensures Bounded(Log(rows, done, lost, |done|, Some(last)), every)
  {
    assert done[..|done|] == done && done[|done|..] == [];
  }

  lemma LastInRows(rows: seq<Row>, batch: seq<Row>, payload: seq<Shipped>, lost: seq<ChunkId>, under: nat)
    requires Coded(batch, payload, lost, under) && payload != []
    ensures payload[|payload| - 1].id in Ids(rows + batch)
  {
    assert Landed(payload)[|payload| - 1] == payload[|payload| - 1].id;
    var i := CodedFrom(batch, payload, lost, under, payload[|payload| - 1].id);
    IdsSplit(rows, batch);
    assert Ids(rows + batch)[|rows| + i] == batch[i].id;
  }

  lemma NothingLost(shipped: seq<Shipped>)
    ensures Arrived([], shipped)
  {
  }

  lemma EmptyBooks(every: nat)
    ensures Sound(Tally(0, 0), Log([], [], [], 0, None), every)
  {
  }

  // ── Runs that stop before they compare ───────────────────────────

  /** A run that finds nothing pending, or only counts, returns normally without
      comparing epochs.  What it resumed from is then of the current numbering
      exactly when the file's epoch is, once anything with terms was shipped. */
  lemma EarlyReturnIffCurrent(m: Migrator, pending: nat, dryRun: bool)
    requires m.Lineage() && Vouched(m.file) && AnyTerms(m.shipped[m.lineage..])
    ensures Open(m.file, pending, dryRun, m.epoch) == Refuse(NothingPending) <==> pending == 0
    ensures Open(m.file, pending, dryRun, m.epoch) == Refuse(DryRun) <==> pending > 0 && dryRun
    ensures OneNumbering(m.shipped[m.lineage..], m.epoch) <==> m.file.epoch == Some(m.epoch)
  {
    m.VouchedIffCurrent();
  }

  /** As a run leaves things that shipped its one row, wrote its last checkpoint and
      was then stopped by its final look at the epoch, because the vocabulary had
      been renumbered: the next run, dry or not, returns normally over ids of the
      old numbering. */
  method FinishedUnderTheOldNumbering(dryRun: bool) returns (m: Migrator, outcome: Outcome, ghost log: Log)
    ensures m.Lineage() && outcome == (if dryRun then DryRun else NothingPending)
    ensures !OneNumbering(m.shipped[m.lineage..], m.epoch)
  {
    m := new Migrator.AsLeft(7, 1, 2);
    var t;
    var table := if dryRun then [Row(7, true, true), Row(8, true, true)] else [Row(7, true, true)];
    assert dryRun ==> table[1..] == [Row(8, true, true)] && Pending(table[1..], m.file) != [];
    ghost var sent;
    outcome, t, log, sent := m.Migrate(table, table, 64, dryRun, 1000);
    assert m.shipped[m.lineage..][0] == Shipped(7, Some(1));
    assert !Numbered(m.shipped[m.lineage..][0], m.epoch);
  }

  // ── Runs that follow one another ─────────────────────────────────

  /** At or below the row the file names. */
  predicate Past(file: Progress, k: ChunkId) {
    file.At? && k <= file.id
  }

  /** One run: the rows it found, the file before and after, the last row it
      accounted for and the last it began to ship, and which ids those were. */
  datatype RunRecord = RunRecord(
    table: seq<Row>, before: Progress, after: Progress,
    booked: Option<ChunkId>, sent: Option<ChunkId>, settled: set<ChunkId>, attempted: set<ChunkId>)

  function LastId(rows: seq<Row>): Option<ChunkId> {
    if rows == [] then None else Some(rows[|rows| - 1].id)
  }

  predicate Within(k: ChunkId, upto: Option<ChunkId>) {
    upto.Some? && k <= upto.value
  }

  predicate Present(r: RunRecord, k: ChunkId) {
    k in Ids(r.table)
  }

  /** Counted as shipped or as failed. */
  function Settled(log: Log): set<ChunkId> {
    (set k | k in log.done) + (set k | k in log.lost)
  }

  function RecordOf(table: seq<Row>, before: Progress, after: Progress, log: Log, sent: seq<Row>): RunRecord {
    RunRecord(table, before, after, LastId(log.rows), LastId(sent), Settled(log), set k | k in Ids(sent))
  }

  /** These ids are the rows found ahead of the file, up to a last one. */
  ghost predicate Reached(r: RunRecord, upto: Option<ChunkId>, ids: set<ChunkId>) {
    forall k :: k in ids <==> Present(r, k) && !Past(r.before, k) && Within(k, upto)
  }

  /** A run accounts for the rows found ahead of the file up to one row, and begins
      to ship them up to another at or beyond it; the file moves forward if at all,
      to a row accounted for. */
  ghost predicate Ran(r: RunRecord) {
    && Reached(r, r.booked, r.settled) && Reached(r, r.sent, r.attempted) && r.settled <= r.attempted
    && (r.after == r.before || (r.after.At? && !Past(r.before, r.after.id) && Within(r.after.id, r.booked)))
  }

  lemma SettledIsRead(t: Tally, log: Log)
    requires Accounted(t, log)
    ensures forall k :: k in Settled(log) <==> k in Ids(log.rows)
  {
    MultisetIn(log.done, log.lost, Ids(log.rows));
    forall k | k in Ids(log.rows) ensures k in Settled(log) {
      assert k in multiset(log.done) + multiset(log.lost);
    }
  }

  lemma HasId(rows: seq<Row>, k: ChunkId)
    ensures k in Ids(rows) <==> exists r :: r in rows && r.id == k
  {
    if k in Ids(rows) {
      var i :| 0 <= i < |Ids(rows)| && Ids(rows)[i] == k;
      assert rows[i] in rows;
    }
    if r :| r in rows && r.id == k {
      var i :| 0 <= i < |rows| && rows[i] == r;
      assert Ids(rows)[i] == k;
    }
  }

  lemma PendingIds(table: seq<Row>, before: Progress, k: ChunkId)
    ensures k in Ids(Pending(table, before)) <==> k in Ids(table) && !Past(before, k)
  {
    PendingMembers(table, before);
    HasId(table, k);
    HasId(Pending(table, before), k);
    hide Pending, Ids;
    if r :| r in table && r.id == k && !Past(before, k) { assert r in Pending(table, before); }
    if r :| r in Pending(table, before) && r.id == k { assert r in table; }
  }

  /** Of an ascending list, what is not above a row of a prefix is in the prefix. */
  lemma InPrefix(rows: seq<Row>, all: seq<Row>, k: ChunkId, last: ChunkId)
    requires Ascending(all) && rows <= all && last in Ids(rows) && k in Ids(all) && k <= last
    ensures k in Ids(rows)
  {
    var i :| 0 <= i < |Ids(rows)| && Ids(rows)[i] == last;
    var j :| 0 <= j < |Ids(all)| && Ids(all)[j] == k;
    assert all[i] == rows[i];
    assert forall x | i < x < |all| :: last < all[x].id;
    assert Ids(rows)[j] == rows[j].id == all[j].id;
  }

  lemma PrefixIds(rows: seq<Row>, all: seq<Row>, k: ChunkId)
    requires rows <= all && k in Ids(rows)
    ensures k in Ids(all)
  {
    var i :| 0 <= i < |Ids(rows)| && Ids(rows)[i] == k;
    assert all[i] == rows[i] && Ids(all)[i] == k;
  }

  /** A prefix of the rows ahead of the file, by its last row. */
  lemma PrefixReached(table: seq<Row>, before: Progress, rows: seq<Row>, k: ChunkId)
    requires Ascending(table) && rows <= Pending(table, before)
    ensures k in Ids(rows) <==> k in Ids(table) && !Past(before, k) && Within(k, LastId(rows))
  {
    PendingAscends(table, before);
    PendingIds(table, before, k);
    hide Pending, Ids, Ascending, Within, LastId;
    PrefixWithin(rows, Pending(table, before), k);
  }

  lemma PrefixWithin(rows: seq<Row>, all: seq<Row>, k: ChunkId)
    requires Ascending(all) && rows <= all
    ensures k in Ids(rows) <==> k in Ids(all) && Within(k, LastId(rows))
  {
    hide Ascending;
    if rows != [] {
      assert Ids(rows)[|rows| - 1] == rows[|rows| - 1].id;
      if k in Ids(all) && Within(k, LastId(rows)) { InPrefix(rows, all, k, rows[|rows| - 1].id); }
      if k in Ids(rows) {
        PrefixIds(rows, all, k);
        LastIsGreatest(rows, all, k);
      }
    }
  }

  lemma LastIsGreatest(rows: seq<Row>, all: seq<Row>, k: ChunkId)
    requires Ascending(all) && rows <= all && k in Ids(rows)
    ensures k <= rows[|rows| - 1].id
  {
    var i :| 0 <= i < |Ids(rows)| && Ids(rows)[i] == k;
    assert all[i] == rows[i] && all[|rows| - 1] == rows[|rows| - 1];
  }

  lemma RowsReached(r: RunRecord, rows: seq<Row>, ids: set<ChunkId>)
    requires Ascending(r.table) && rows <= Pending(r.table, r.before)
    requires forall k :: k in ids <==> k in Ids(rows)
    ensures Reached(r, LastId(rows), ids)
  {
    hide Ascending, Pending, Ids, Past, Within, LastId;
    forall k ensures k in ids <==> Present(r, k) && !Past(r.before, k) && Within(k, LastId(rows)) {
      PrefixReached(r.table, r.before, rows, k);
    }
  }

  /** What a run of the script does is such a run. */
  lemma RunCovers(table: seq<Row>, before: Progress, after: Progress, t: Tally, log: Log, sent: seq<Row>, every: nat)
    requires Ascending(table) && Sound(t, log, every) && log.rows <= sent <= Pending(table, before)
    requires after == before || (after.At? && after.id in Ids(log.rows))
    ensures Ran(RecordOf(table, before, after, log, sent))
  {
    var r := RecordOf(table, before, after, log, sent);
    SettledIsRead(t, log);
    hide Ascending, Pending, Ids, Settled, Sound, Past, Within, LastId, Reached;
    RowsReached(r, log.rows, r.settled);
    RowsReached(r, sent, r.attempted);
    forall k | k in r.settled ensures k in r.attempted { PrefixIds(log.rows, sent, k); }
    if after != before { PrefixReached(table, before, log.rows, after.id); }
  }

  /** Runs of one progress file, each resuming where the last one left it. */
  ghost predicate History(runs: seq<RunRecord>) {
    && (forall i | 0 <= i < |runs| :: Ran(runs[i]))
    && (forall i | 0 <= i < |runs| - 1 :: runs[i + 1].before == runs[i].after)
  }

  lemma {:induction false} NeverBack(runs: seq<RunRecord>, i: nat, j: nat, k: ChunkId)
    requires History(runs) && i <= j < |runs| && Past(runs[i].after, k)
    ensures Past(runs[j].after, k) && (i < j ==> Past(runs[j].before, k))
  {
    if i < j {
      NeverBack(runs, i, j - 1, k);
      assert Ran(runs[j]) && runs[j].before == runs[j - 1].after;
    }
  }

  lemma {:induction false} Crossing(runs: seq<RunRecord>, n: nat, k: ChunkId) returns (j: nat)
    requires History(runs) && n < |runs| && Past(runs[n].after, k) && !Past(runs[0].before, k)
    ensures j <= n && Past(runs[j].after, k) && !Past(runs[j].before, k)
  {
    if Past(runs[n].before, k) {
      assert n > 0;
      assert runs[n].before == runs[n - 1].after;
      j := Crossing(runs, n - 1, k);
    } else {
      j := n;
    }
  }

  /** Up to the run that moves the file past it, an id is still ahead. */
  lemma StillAhead(runs: seq<RunRecord>, i: nat, j: nat, k: ChunkId)
    requires History(runs) && i <= j < |runs| && !Past(runs[j].before, k) && !Past(runs[0].before, k)
    ensures !Past(runs[i].before, k)
  {
    if 0 < i && Past(runs[i].before, k) {
      assert runs[i].before == runs[i - 1].after;
      NeverBack(runs, i - 1, j, k);
    }
  }

  /** Across a lineage of runs over a table that others change: an id the file has
      moved past was passed by exactly one run.  If that run found it, it shipped it
      or counted it as failed.  Some run counted it, or only began to ship it,
      exactly when that run found it, or an earlier run found it and had accounted
      for rows, or begun to ship them, as far as that.  A row is missed when it was
      inserted, at a random id, below a checkpoint already written. */
  lemma LineageCovers(runs: seq<RunRecord>, n: nat, k: ChunkId) returns (j: nat)
    requires History(runs) && n < |runs| && Past(runs[n].after, k) && !Past(runs[0].before, k)
    ensures j <= n && Past(runs[j].after, k) && !Past(runs[j].before, k)
    ensures forall i | 0 <= i < |runs| && Past(runs[i].after, k) && !Past(runs[i].before, k) :: i == j
    ensures Present(runs[j], k) <==> k in runs[j].settled
    ensures (exists i | 0 <= i < |runs| :: k in runs[i].settled) <==>
            Present(runs[j], k) || exists i | 0 <= i < j :: Present(runs[i], k) && Within(k, runs[i].booked)
    ensures (exists i | 0 <= i < |runs| :: k in runs[i].attempted) <==>
            Present(runs[j], k) || exists i | 0 <= i < j :: Present(runs[i], k) && Within(k, runs[i].sent)
  {
    j := Crossing(runs, n, k);
    assert Ran(runs[j]);
    forall i | 0 <= i < |runs| && Past(runs[i].after, k) && !Past(runs[i].before, k) ensures i == j {
      if i < j { NeverBack(runs, i, j, k); }
      if j < i { NeverBack(runs, j, i, k); }
    }
    forall i | 0 <= i < |runs|
      ensures k in runs[i].settled <==> i <= j && Present(runs[i], k) && (i == j || Within(k, runs[i].booked))
      ensures k in runs[i].attempted <==> i <= j && Present(runs[i], k) && (i == j || Within(k, runs[i].sent))
    {
      assert Ran(runs[i]);
      if i <= j { StillAhead(runs, i, j, k); } else { NeverBack(runs, j, i, k); }
    }
  }

  // ── A row inserted behind the file ───────────────────────────────

  const ROW_3: Row := Row(3, true, true)
  const ROW_5: Row := Row(5, true, true)

  /** The run that shipped the one row there was, and wrote it to the file. */
  ghost function FirstRun(): RunRecord {
    RunRecord([ROW_5], Absent, At(5, Some(1)), Some(5), Some(5), {5}, {5})
  }

  lemma FirstRan()
    ensures Ran(FirstRun())
  {
    assert Ids([ROW_5]) == [5];
  }

  lemma BothAhead(file: Progress)
    requires file == At(5, Some(1))
    ensures Pending([ROW_3, ROW_5], file) == [] && 3 in Ids([ROW_3, ROW_5]) && Ascending([ROW_3, ROW_5])
  {
    assert [ROW_3, ROW_5][1..] == [ROW_5] && [ROW_5][1..] == [];
    assert Pending([ROW_5], file) == [];
    assert Ids([ROW_3, ROW_5])[0] == 3;
  }

  /** Then row 3 is inserted, and the next run finds nothing ahead of the file. */
  lemma SecondMisses(second: RunRecord)
    requires Ran(second) && second.before == second.after == At(5, Some(1))
    ensures History([FirstRun(), second])
    ensures 3 !in FirstRun().attempted && 3 !in second.attempted
  {
    FirstRan();
  }

  /** Run 1 leaves things as `FirstRun` says; row 3 is inserted; run 2 finds it, passes
      it by and returns normally.  It is in no run's account and not in the target. */
  method InsertedBelowIsMissed() returns (m: Migrator, outcome: Outcome, ghost runs: seq<RunRecord>)
    ensures History(runs) && |runs| == 2 && runs[0].before.Absent? && runs[1].after == m.file
    ensures Present(runs[1], 3) && Past(m.file, 3) && outcome == NothingPending
    ensures 3 !in runs[0].attempted && 3 !in runs[1].attempted && 3 !in Landed(m.shipped)
  {
    m := new Migrator.AsLeft(5, 1, 1);
    assert Landed(m.shipped) == [5];
    BothAhead(m.file);
    ghost var log, sent;
    var t;
    hide *;
    outcome, t, log, sent := m.Migrate([ROW_3, ROW_5], [ROW_3, ROW_5], 64, false, 1000);
    ghost var second := RecordOf([ROW_3, ROW_5], At(5, Some(1)), m.file, log, sent);
    SecondMisses(second);
    runs := [FirstRun(), second];
  }

  lemma OldIdStays(was: seq<Shipped>, shipped: seq<Shipped>, ids: seq<ChunkId>, epoch: nat)
    requires Grew(was, shipped, ids) && was == [Shipped(3, Some(1))] && epoch >= 2
    ensures !OneNumbering(shipped, epoch)
  {
    assert shipped[0] in shipped && !Numbered(shipped[0], epoch);
  }

  /** A run resumes from a file written before epochs were, over ids since
      renumbered.  If it completes, the target holds ids from two numberings. */
  method LegacyFileMixes() returns (m: Migrator, outcome: Outcome)
    ensures m.Lineage()
    ensures outcome.Completed? ==> OneNumbering(m.shipped[m.lineage..], m.epoch) && !OneNumbering(m.shipped, m.epoch)
  {
    m := new Migrator.AsLeft(3, 1, 2);
    m.file := At(3, None);
    ghost var was := m.shipped;
    var table := [Row(3, true, true), Row(7, true, true)];
    ghost var log, sent;
    var t;
    hide Grew, Ran, Pending, OneNumbering, Ids, CleanStarts;
    outcome, t, log, sent := m.Migrate(table, table, 64, false, 1000);
    OldIdStays(was, m.shipped, Ids(sent), m.epoch);
  }
}
