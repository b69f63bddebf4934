/** `scripts/backfill_vault_id.py`: two ways of filling `vault_id` on stored points. */
module VaultBackfill {
  import opened Options
  import opened Ranks

  const BATCH: nat := 5000

  type Id = int

  /** A point, the source it was cut from, and its vault once known. */
  datatype Point = Point(source: Id, vault: Option<Id>)
  type Points = map<Id, Point>

  /** A row of `_SOURCE_MAP_SQL`. */
  datatype Source = Source(sid: Id, vid: Id)

  /** Points the backfill has to fill: no vault yet, and a source that has one. */
  function Owed(points: Points, vaults: map<Id, Id>): set<Id> {
    set k | k in points && points[k].vault.None? && points[k].source in vaults
  }

  /** The given points filled, everything else untouched. */
  function FillSome(points: Points, vaults: map<Id, Id>, which: set<Id>): Points
    requires which <= Owed(points, vaults)
  {
    map k | k in points :: if k in which then points[k].(vault := Some(vaults[points[k].source])) else points[k]
  }

  /** Every owed point filled. */
  function Filled(points: Points, vaults: map<Id, Id>): Points {
    FillSome(points, vaults, Owed(points, vaults))
  }

  ghost predicate Functional(sources: seq<Source>) {
    forall a, b | a in sources && b in sources && a.sid == b.sid :: a.vid == b.vid
  }

  function MapOf(sources: seq<Source>): map<Id, Id> {
    if sources == [] then map[] else
      MapOf(sources[..|sources| - 1])[sources[|sources| - 1].sid := sources[|sources| - 1].vid]
  }

  lemma {:induction false} MapOfMembers(sources: seq<Source>)
    ensures forall s | s in sources :: s.sid in MapOf(sources)
    ensures forall i | i in MapOf(sources) :: Source(i, MapOf(sources)[i]) in sources
  {
    if sources != [] {
      MapOfMembers(sources[..|sources| - 1]);
      assert sources == sources[..|sources| - 1] + [sources[|sources| - 1]];
    }
  }

  // ── Filling in parts ─────────────────────────────────────────────

  /** Whatever part of the owed points is filled first, filling the rest gives the
      same points, and the parts count up to the whole: a run may stop anywhere
      and be started again. */
  lemma FillInParts(points: Points, vaults: map<Id, Id>, which: set<Id>)
    requires which <= Owed(points, vaults)
    ensures Owed(FillSome(points, vaults, which), vaults) == Owed(points, vaults) - which
    ensures Filled(FillSome(points, vaults, which), vaults) == Filled(points, vaults)
    ensures |Owed(FillSome(points, vaults, which), vaults)| + |which| == |Owed(points, vaults)|
  {
    var p := FillSome(points, vaults, which);
    SameSet(Owed(p, vaults), Owed(points, vaults) - which);
    SamePoints(Filled(p, vaults), Filled(points, vaults));
    assert |Owed(points, vaults) - which| == |Owed(points, vaults)| - |which|;
  }

  lemma SameSet<T>(a: set<T>, b: set<T>)
    requires forall x :: x in a <==> x in b
    ensures a == b
  {
  }

  lemma SamePoints<K, V>(a: map<K, V>, b: map<K, V>)
    requires forall k :: k in a <==> k in b
    requires forall k | k in a && k in b :: a[k] == b[k]
    ensures a == b
  {
  }

  /** Run again, either backfill finds nothing to do. */
  lemma FilledIsFinal(points: Points, vaults: map<Id, Id>)
    ensures Owed(Filled(points, vaults), vaults) == {}
    ensures Filled(Filled(points, vaults), vaults) == Filled(points, vaults)
  {
    FillInParts(points, vaults, Owed(points, vaults));
  }

  ghost predicate Agree(a: map<Id, Id>, b: map<Id, Id>) {
    forall s | s in a && s in b :: a[s] == b[s]
  }

  function FillPoint(p: Point, vaults: map<Id, Id>): Point {
    if p.vault.None? && p.source in vaults then p.(vault := Some(vaults[p.source])) else p
  }

  lemma FilledPointwise(points: Points, vaults: map<Id, Id>)
    ensures forall k :: k in Filled(points, vaults) <==> k in points
    ensures forall k | k in points :: Filled(points, vaults)[k] == FillPoint(points[k], vaults)
    ensures forall k :: k in Owed(points, vaults) <==> k in points && points[k] != FillPoint(points[k], vaults)
  {
  }

  /** Filling from one part of the sources and then from another is filling from
      both, whatever the order they arrive in. */
  lemma FillFromParts(points: Points, a: map<Id, Id>, b: map<Id, Id>)
    requires Agree(a, b)
    ensures Filled(Filled(points, a), b) == Filled(points, a + b)
    ensures |Owed(points, a)| + |Owed(Filled(points, a), b)| == |Owed(points, a + b)|
  {
    var p := Filled(points, a);
    FilledPointwise(points, a);
    FilledPointwise(p, b);
    FilledPointwise(points, a + b);
    SamePoints(Filled(p, b), Filled(points, a + b));
    OwedInParts(points, a, b);
  }

  lemma OwedInParts(points: Points, a: map<Id, Id>, b: map<Id, Id>)
    requires Agree(a, b)
    ensures |Owed(points, a)| + |Owed(Filled(points, a), b)| == |Owed(points, a + b)|
  {
    var p := Filled(points, a);
    forall k ensures k in Owed(p, b) <==> k in Owed(points, a + b) && k !in Owed(points, a) {}
    SameSet(Owed(points, a) + Owed(p, b), Owed(points, a + b));
    Disjoint(Owed(points, a), Owed(p, b));
  }

  lemma Disjoint<T>(a: set<T>, b: set<T>)
    requires forall x | x in b :: x !in a
    ensures |a + b| == |a| + |b|
  {
    assert a !! b;
  }

  /** A row of the update's join: the point has no vault and this is its source. */
  predicate Awaits(p: Point, s: Source) {
    p.vault.None? && p.source == s.sid
  }

  function Changed(before: Points, after: Points): set<Id> {
    set k | k in before && k in after && after[k] != before[k]
  }

  /** Filling every joined row and no other is filling from the batch's sources. */
  lemma JoinIsFilled(before: Points, after: Points, batch: seq<Source>)
    requires Functional(batch) && after.Keys == before.Keys
    requires forall k, s | k in after && s in batch && Awaits(before[k], s) :: after[k] == Point(s.sid, Some(s.vid))
    requires forall k | k in after && (forall s | s in batch :: !Awaits(before[k], s)) :: after[k] == before[k]
    ensures after == Filled(before, MapOf(batch)) && Changed(before, after) == Owed(before, MapOf(batch))
  {
    var vaults := MapOf(batch);
    MapOfMembers(batch);
    FilledPointwise(before, vaults);
    forall k | k in before ensures after[k] == FillPoint(before[k], vaults) {
      var p := before[k];
      if p.vault.None? && p.source in vaults {
        assert Awaits(p, Source(p.source, vaults[p.source]));
      }
    }
    SamePoints(after, Filled(before, vaults));
    SameSet(Changed(before, after), Owed(before, vaults));
  }

  // ── The two backfills ────────────────────────────────────────────

  class VectorIndex {
    var points: Points

    constructor (points: Points)
      ensures this.points == points
    {
      this.points := points;
    }

    /** `WITH batch AS (... LIMIT 5000) UPDATE`: some owed points, none only when
        none is left. */
    method UpdateSome(vaults: map<Id, Id>) returns (n: nat)
      modifies this
      ensures n <= BATCH && (n == 0 <==> Owed(old(points), vaults) == {})
      ensures exists which ::
        && which <= Owed(old(points), vaults) && |which| == n
        && points == FillSome(old(points), vaults, which)
    {
      var owed := Owed(points, vaults);
      var batch := {};
      if owed != {} {
        batch := *;
        if !(batch <= owed && 0 < |batch| <= BATCH) {
          var k := Min(owed);
          batch := {k};
        }
      }
      assert batch <= owed;
      n := |batch|;
      points := FillSome(points, vaults, batch);
    }

    /** `_backfill_same_instance`. */
    method SameInstance(vaults: map<Id, Id>) returns (total: nat)
      modifies this
      ensures points == Filled(old(points), vaults) && total == |Owed(old(points), vaults)|
    {
      total := 0;
      while true
        invariant total + |Owed(points, vaults)| == |Owed(old(points), vaults)|
        invariant Filled(points, vaults) == Filled(old(points), vaults)
        decreases |Owed(points, vaults)|
      {
        ghost var before := points;
        var n := UpdateSome(vaults);
        ghost var which :| which <= Owed(before, vaults) && |which| == n && points == FillSome(before, vaults, which);
        FillInParts(before, vaults, which);
        total := total + n;
        if n == 0 {
          FilledNothing(points, vaults);
          return;
        }
      }
    }

    /** `_apply_batch`. */
    method ApplyBatch(batch: seq<Source>) returns (n: nat)
      requires Functional(batch)
      modifies this
      ensures points.Keys == old(points).Keys && n == |Changed(old(points), points)|
      ensures forall k, s | k in points && s in batch && Awaits(old(points)[k], s) ::
                points[k] == Point(s.sid, Some(s.vid))
      ensures forall k | k in points && (forall s | s in batch :: !Awaits(old(points)[k], s)) ::
                points[k] == old(points)[k]
    {
      var vaults := MapOf(batch);
      n := |Owed(points, vaults)|;
      points := Filled(points, vaults);
      MapOfMembers(batch);
      FilledPointwise(old(points), vaults);
      SameSet(Changed(old(points), points), Owed(old(points), vaults));
    }

    /** `_backfill_separate`: the sources streamed, a batch at a time. */
    method Separate(sources: seq<Source>) returns (updated: nat)
      requires Functional(sources)
      modifies this
      ensures points == Filled(old(points), MapOf(sources)) && updated == |Owed(old(points), MapOf(sources))|
    {
      updated := 0;
      var batch: seq<Source> := [];
      FilledNone(points);
      assert sources[..0] == [] && MapOf([]) == map[];
      ghost var flushed := 0;
      ghost var start := points;
      for i := 0 to |sources|
        invariant flushed + |batch| == i && |batch| < BATCH && batch == sources[flushed..i]
        invariant FilledFrom(start, sources, flushed, updated)
      {
        batch := batch + [sources[i]];
        assert batch == sources[flushed..i + 1];
        if |batch| >= BATCH {
          updated := Flush(start, sources, flushed, batch, updated);
          flushed, batch := i + 1, [];
        }
      }
      if batch != [] {
        updated := Flush(start, sources, flushed, batch, updated);
        flushed := |sources|;
      }
      assert sources[..flushed] == sources;
      FilledSoFar(start, sources, flushed, updated);
    }

    /** The points as the first sources leave them, and how many they filled. */
    ghost predicate FilledFrom(start: Points, sources: seq<Source>, n: nat, updated: nat)
      reads this
    {
      n <= |sources| && points == Filled(start, MapOf(sources[..n])) && updated == |Owed(start, MapOf(sources[..n]))|
    }

    lemma FilledSoFar(start: Points, sources: seq<Source>, n: nat, updated: nat)
      requires FilledFrom(start, sources, n, updated) && sources[..n] == sources
      ensures points == Filled(start, MapOf(sources)) && updated == |Owed(start, MapOf(sources))|
    {
    }

    method Flush(ghost start: Points, ghost sources: seq<Source>, ghost flushed: nat, batch: seq<Source>, sofar: nat)
      returns (updated: nat)
      requires flushed + |batch| <= |sources| && batch == sources[flushed..flushed + |batch|] && Functional(sources)
      requires FilledFrom(start, sources, flushed, sofar)
      modifies this
      ensures FilledFrom(start, sources, flushed + |batch|, updated)
    {
      ghost var before := points;
      var n := ApplyBatch(batch);
      JoinIsFilled(before, points, batch);
      updated := sofar + n;
      ghost var head := sources[..flushed];
      assert sources[..flushed + |batch|] == head + batch;
      MapOfSplit(head, batch);
      PartsAgree(sources, head, batch);
      FillFromParts(start, MapOf(head), MapOf(batch));
    }
  }

  lemma FilledNothing(points: Points, vaults: map<Id, Id>)
    requires Owed(points, vaults) == {}
    ensures Filled(points, vaults) == points
  {
    SamePoints(Filled(points, vaults), points);
  }

  lemma FilledNone(points: Points)
    ensures Filled(points, map[]) == points && Owed(points, map[]) == {}
  {
    SameSet(Owed(points, map[]), {});
    FilledNothing(points, map[]);
  }

  lemma {:induction false} MapOfSplit(a: seq<Source>, b: seq<Source>)
    ensures MapOf(a + b) == MapOf(a) + MapOf(b)
  {
    if b == [] {
      assert a + b == a;
    } else {
      MapOfSplit(a, b[..|b| - 1]);
      assert (a + b)[..|a + b| - 1] == a + b[..|b| - 1];
    }
  }

  lemma PartsAgree(sources: seq<Source>, a: seq<Source>, b: seq<Source>)
    requires Functional(sources) && (forall s | s in a :: s in sources) && (forall s | s in b :: s in sources)
    ensures Agree(MapOf(a), MapOf(b))
  {
    MapOfMembers(a);
    MapOfMembers(b);
  }

  /** The two backfills agree: the same points, and the same number reported. */
  method BothWays(points: Points, sources: seq<Source>) returns (a: VectorIndex, b: VectorIndex, na: nat, nb: nat)
    requires Functional(sources)
    ensures a.points == b.points && na == nb
    ensures a.points.Keys == points.Keys
    ensures forall k | k in points ::
      a.points[k] ==
        if points[k].vault.None? && points[k].source in MapOf(sources)
        then Point(points[k].source, Some(MapOf(sources)[points[k].source]))
        else points[k]
  {
    a := new VectorIndex(points);
    b := new VectorIndex(points);
    na := a.SameInstance(MapOf(sources));
    nb := b.Separate(sources);
  }
}
