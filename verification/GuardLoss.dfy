/** What a lost guard session does to the runs of `scripts/bm25_run_lock.py`. */
module GuardLoss {
  import opened Options
  import opened RunLock

  // ── Losing at most one session each: exactly when that is enough ──

  /** A run loses at most one of its two sessions. */
  predicate OneLoss(s: System, step: Step) {
    step.Die? && step.run in s.runs ==> !At(s.runs[step.run], Other(step.side)).ended
  }

  /** Every run that begins, but perhaps the spared one, took its control key
      while its owner session was alive; and while the spared one waits for that
      key, its owner session is as it is. */
  predicate Steady(s: System, step: Step, spared: nat) {
    match step
    case Begin(r) => r != spared && r in s.runs && !s.runs[r].lost ==> s.runs[r].paired
    case Die(r, side) => !(r == spared && r in s.runs && s.runs[r].phase == AcquireKey(Control) && side.Owner?)
    case _ => true
  }

  /** Steps that lead from one state to another, each run losing at most one
      session; `spared` restricts them as above. */
  ghost predicate Path(s: System, steps: seq<Step>, t: System, spared: Option<nat>)
    decreases |steps|
  {
    if steps == [] then s == t else
      && Enabled(s, steps[0]) && OneLoss(s, steps[0])
      && (spared.Some? ==> Steady(s, steps[0], spared.value))
      && Path(After(s, steps[0]), steps[1..], t, spared)
  }

  lemma OneStep(s: System, step: Step, spared: Option<nat>)
    requires Enabled(s, step) && OneLoss(s, step) && (spared.Some? ==> Steady(s, step, spared.value))
    ensures Path(s, [step], After(s, step), spared)
  {
    assert [step][1..] == [];
  }

  lemma {:induction false} PathJoins(s: System, p: seq<Step>, t: System, q: seq<Step>, u: System, spared: Option<nat>)
    requires Path(s, p, t, spared) && Path(t, q, u, spared)
    ensures Path(s, p + q, u, spared)
    decreases |p|
  {
    hide Enabled, OneLoss, Steady, After;
    if p == [] {
      assert p + q == q;
    } else {
      assert (p + q)[0] == p[0] && (p + q)[1..] == p[1..] + q;
      PathJoins(After(s, p[0]), p[1..], t, q, u, spared);
    }
  }

  lemma {:induction false} PathUnrestricted(s: System, p: seq<Step>, t: System, spared: Option<nat>)
    requires Path(s, p, t, spared)
    ensures Path(s, p, t, None)
    decreases |p|
  {
    hide Enabled, OneLoss, Steady, After;
    if p != [] { PathUnrestricted(After(s, p[0]), p[1..], t, spared); }
  }

  /** `t` is `s` with this run put there. */
  predicate With(s: System, r: nat, run: Run, t: System) {
    t == s.(runs := s.runs[r := run])
  }

  lemma WithTwice(s: System, r: nat, a: Run, t: System, b: Run, u: System)
    requires With(s, r, a, t) && With(t, r, b, u)
    ensures With(s, r, b, u)
  {
    assert s.runs[r := a][r := b] == s.runs[r := b];
  }

  /** What is left of a run on its way out. */
  function Remaining(r: Run): nat {
    match r.phase
    case Finished => 0
    case Leave(side) => if side.Owner? then 1 else 2
    case Draining => if r.op.InProgress? then 4 else 3
    case Running => 5
    case _ => 6
  }

  /** The step that takes a run further out. */
  function Out(x: nat, r: Run): Step {
    if r.phase.Leave? then Return(x)
    else if r.phase.Draining? then (if r.op.InProgress? then OpEnds(x) else Drained(x))
    else Cancelled(x)
  }

  lemma OutStep(s: System, x: nat, spared: nat)
    requires x in s.runs && RunOk(s.runs[x], s.bulk) && !s.runs[x].phase.Finished?
    ensures var step := Out(x, s.runs[x]);
      && Enabled(s, step) && OneLoss(s, step) && Steady(s, step, spared) && OfRun(step)
      && With(s, x, Acted(s, step, s.runs[x]), After(s, step))
      && Remaining(Acted(s, step, s.runs[x])) < Remaining(s.runs[x])
  {
    hide KeyTaken;
    OutOrder(s, x);
  }

  lemma OutOrder(s: System, x: nat)
    requires x in s.runs && RunOk(s.runs[x], s.bulk) && !s.runs[x].phase.Finished?
    ensures Enabled(s, Out(x, s.runs[x]))
    ensures Remaining(Acted(s, Out(x, s.runs[x]), s.runs[x])) < Remaining(s.runs[x])
  {
    hide KeyTaken;
  }

  /** Any run can be brought to its end, giving back all it holds, with no other
      run touched and no session lost. */
  lemma {:induction false} DriveOut(s: System, x: nat, spared: nat) returns (steps: seq<Step>, t: System, last: Run)
    requires x in s.runs && RunOk(s.runs[x], s.bulk)
    ensures Path(s, steps, t, Some(spared)) && With(s, x, last, t)
    ensures RunOk(last, s.bulk) && last.phase.Finished?
    decreases Remaining(s.runs[x])
  {
    if s.runs[x].phase.Finished? {
      assert s.runs[x := s.runs[x]] == s.runs;
      return [], s, s.runs[x];
    }
    var step := Out(x, s.runs[x]);
    OutStep(s, x, spared);
    OneStep(s, step, Some(spared));
    ActedKeepsRunOk(s, step);
    var run := Acted(s, step, s.runs[x]);
    hide Enabled, OneLoss, Steady, After, Acted, RunOk, Out;
    var rest;
    rest, t, last := DriveOut(After(s, step), x, spared);
    PathJoins(s, [step], After(s, step), rest, t, Some(spared));
    WithTwice(s, x, run, After(s, step), last, t);
    steps := [step] + rest;
  }

  /** No run holds this key, unless it is `but`. */
  ghost predicate FreeBut(s: System, side: Side, but: nat) {
    forall x | x in s.runs && x != but :: !At(s.runs[x], side).key
  }

  /** Whoever holds a key can be driven out. */
  lemma FreeKey(s: System, side: Side, r: nat) returns (steps: seq<Step>, t: System)
    requires Inv(s) && r in s.runs && !At(s.runs[r], side).key
    ensures Path(s, steps, t, Some(r)) && Inv(t) && r in t.runs && t.runs[r] == s.runs[r] && t.bulk == s.bulk
    ensures FreeBut(t, side, r) && (FreeBut(s, Other(side), r) ==> FreeBut(t, Other(side), r))
  {
    if x :| x in s.runs && At(s.runs[x], side).key {
      var last;
      steps, t, last := DriveOut(s, x, r);
      FinishedUpdate(s, x, last, side);
    } else {
      steps, t := [], s;
    }
  }

  lemma FinishedUpdate(s: System, x: nat, last: Run, side: Side)
    requires Inv(s) && x in s.runs && At(s.runs[x], side).key && RunOk(last, s.bulk) && last.phase.Finished?
    ensures var t := s.(runs := s.runs[x := last]);
      Inv(t) && FreeBut(t, side, x) && (forall r | FreeBut(s, Other(side), r) :: FreeBut(t, Other(side), r))
      && forall y | y in t.runs :: !At(t.runs[y], side).key
  {
    UpdateKeepsLocks(s, x, last);
  }

  lemma FreeRecompute(s: System, r: nat) returns (steps: seq<Step>, t: System)
    requires Inv(s) && r in s.runs
    ensures Path(s, steps, t, Some(r)) && t == s.(recomputing := false)
  {
    if s.recomputing {
      OneStep(s, EndRecompute, Some(r));
      steps, t := [EndRecompute], After(s, EndRecompute);
    } else {
      steps, t := [], s;
    }
  }

  /** A live waiting run takes a free key, and in bulk its share of the recompute key. */
  function Took(r: Run, side: Side, bulk: bool): Run {
    Put(r, side, Session(false, true, bulk)).(phase := Next(side), paired := side.Control? && !r.owner.ended)
  }

  lemma Acquire(s: System, x: nat, side: Side, spared: nat) returns (steps: seq<Step>, t: System)
    requires x in s.runs && s.runs[x].phase == AcquireKey(side) && At(s.runs[x], side) == IDLE
    requires FreeBut(s, side, x) && !s.recomputing
    ensures Path(s, steps, t, Some(spared)) && With(s, x, Took(s.runs[x], side, s.bulk), t)
  {
    var r := s.runs[x];
    assert !KeyTaken(s, side);
    OneStep(s, TryKey(x), Some(spared));
    t := After(s, TryKey(x));
    steps := [TryKey(x)];
    if s.bulk {
      var u := After(t, TryShared(x));
      OneStep(t, TryShared(x), Some(spared));
      PathJoins(s, [TryKey(x)], t, [TryShared(x)], u, Some(spared));
      assert s.runs[x := t.runs[x]][x := u.runs[x]] == s.runs[x := u.runs[x]];
      steps, t := [TryKey(x)] + [TryShared(x)], u;
    }
  }

  lemma {:induction false} FreshId(ids: set<nat>) returns (q: nat)
    ensures q !in ids && forall x | x in ids :: x < q
  {
    q := 0;
    if ids != {} {
      var x := PickId(ids);
      q := FreshId(ids - {x});
      forall y | y in ids ensures y == x || y < q { assert y == x || y in ids - {x}; }
      q := if q <= x then x + 1 else q;
    }
  }

  lemma PickId(ids: set<nat>) returns (x: nat)
    requires ids != {}
    ensures x in ids
  {
    x :| x in ids;
  }

  /** Working on its owner guard alone, after losing the control one. */
  function Half(bulk: bool): Run {
    Took(Took(ENTERING, Owner, bulk), Control, bulk).(
      phase := Running, op := InProgress, control := Session(true, false, false))
  }

  /** A new run takes both free guards, starts, and loses one. */
  lemma Works(s: System, q: nat, spared: nat) returns (steps: seq<Step>, t: System)
    requires q !in s.runs && q != spared && !s.recomputing
    requires forall side, x | x in s.runs :: !At(s.runs[x], side).key
    ensures Path(s, steps, t, Some(spared)) && With(s, q, Half(s.bulk), t)
  {
    var s1 := After(s, Spawn(q));
    OneStep(s, Spawn(q), Some(spared));
    var p2, s2 := Acquire(s1, q, Owner, spared);
    PathJoins(s, [Spawn(q)], s1, p2, s2, Some(spared));
    WithTwice(s, q, ENTERING, s1, Took(ENTERING, Owner, s.bulk), s2);
    var p3, s3 := Acquire(s2, q, Control, spared);
    PathJoins(s, [Spawn(q)] + p2, s2, p3, s3, Some(spared));
    WithTwice(s, q, s2.runs[q], s2, s3.runs[q], s3);
    var p4, s4 := BeginAndLose(s3, q, spared);
    PathJoins(s, [Spawn(q)] + p2 + p3, s3, p4, s4, Some(spared));
    WithTwice(s, q, s3.runs[q], s3, s4.runs[q], s4);
    steps, t := [Spawn(q)] + p2 + p3 + p4, s4;
  }

  lemma BeginAndLose(s: System, q: nat, spared: nat) returns (steps: seq<Step>, t: System)
    requires q in s.runs && q != spared && s.runs[q] == Took(Took(ENTERING, Owner, s.bulk), Control, s.bulk)
    ensures Path(s, steps, t, Some(spared)) && With(s, q, Half(s.bulk), t)
  {
    var s1 := After(s, Begin(q));
    OneStep(s, Begin(q), Some(spared));
    t := After(s1, Die(q, Control));
    OneStep(s1, Die(q, Control), Some(spared));
    PathJoins(s, [Begin(q)], s1, [Die(q, Control)], t, Some(spared));
    WithTwice(s, q, s1.runs[q], s1, t.runs[q], t);
    steps := [Begin(q)] + [Die(q, Control)];
  }

  /** Still waiting for its control key, with that session alive and no loss noticed. */
  predicate Waits(s: System, r: nat) {
    r in s.runs && s.runs[r].phase == AcquireKey(Control) && !s.runs[r].control.ended && !s.runs[r].lost
  }

  /** From any state in which a run waits for its control key and has lost its
      owner session unnoticed, whatever else is going on, there is a way on that
      ends with two operations in progress, with one session lost on the way and
      neither run without a guard. */
  lemma Breach(s: System, r: nat) returns (steps: seq<Step>, t: System, q: nat)
    requires Inv(s) && Waits(s, r) && s.runs[r].owner.ended
    ensures Path(s, steps, t, Some(r)) && q != r && Working(t, q) && Working(t, r)
    ensures Alive(t.runs[q]) && Alive(t.runs[r])
  {
    var p1, s1 := Clears(s, r);
    hide Path, Enabled, Inv, Acted;
    q := FreshId(s1.runs.Keys);
    var p2, s2 := Works(s1, q, r);
    PathJoins(s, p1, s1, p2, s2, Some(r));
    var p3, s3 := Follows(s2, r, q);
    PathJoins(s, p1 + p2, s2, p3, s3, Some(r));
    steps, t := p1 + p2 + p3, s3;
  }

  /** Everyone holding a key, and any recompute, can be seen out. */
  lemma Clears(s: System, r: nat) returns (steps: seq<Step>, t: System)
    requires Inv(s) && Waits(s, r) && s.runs[r].owner.ended
    ensures Path(s, steps, t, Some(r)) && t.bulk == s.bulk && !t.recomputing
    ensures r in t.runs && t.runs[r] == s.runs[r] && HoldsNothing(t.runs[r].control)
    ensures forall side, x | x in t.runs :: !At(t.runs[x], side).key
  {
    assert RunOk(s.runs[r], s.bulk);
    hide Path, Enabled, Inv, RunOk, Acted;
    var p1, s1 := FreeKey(s, Owner, r);
    var p2, s2 := FreeKey(s1, Control, r);
    PathJoins(s, p1, s1, p2, s2, Some(r));
    var p3, s3 := FreeRecompute(s2, r);
    PathJoins(s, p1 + p2, s2, p3, s3, Some(r));
    AllFree(s3, r);
    steps, t := p1 + p2 + p3, s3;
  }

  lemma AllFree(s: System, r: nat)
    requires FreeBut(s, Owner, r) && FreeBut(s, Control, r)
    requires r in s.runs && !s.runs[r].owner.key && !s.runs[r].control.key
    ensures forall side, x | x in s.runs :: !At(s.runs[x], side).key
  {
    forall side, x | x in s.runs ensures !At(s.runs[x], side).key {
      if side.Owner? {
        assert x != r ==> !At(s.runs[x], Owner).key;
      } else {
        assert x != r ==> !At(s.runs[x], Control).key;
      }
    }
  }

  /** The waiting run gets the key the other has lost, sees no loss, and starts. */
  lemma Follows(s: System, r: nat, q: nat) returns (steps: seq<Step>, t: System)
    requires Waits(s, r) && HoldsNothing(s.runs[r].control) && !s.recomputing && FreeBut(s, Control, r)
    requires q in s.runs && q != r && s.runs[q] == Half(s.bulk)
    ensures Path(s, steps, t, Some(r)) && Working(t, q) && Working(t, r) && Alive(t.runs[q]) && Alive(t.runs[r])
  {
    var p1, s1 := Acquire(s, r, Control, r);
    t := After(s1, Begin(r));
    OneStep(s1, Begin(r), Some(r));
    PathJoins(s, p1, s1, [Begin(r)], t, Some(r));
    steps := p1 + [Begin(r)];
  }

  // The other half: from a state reached in order, an owner session alive is enough.

  ghost predicate NoneLostBoth(s: System) {
    forall x | x in s.runs :: Alive(s.runs[x])
  }

  /** The spared run's owner session is alive until it has taken both keys. */
  predicate Paired(s: System, r: nat) {
    r in s.runs && match s.runs[r].phase
                   case AcquireKey(side) => side.Control? && !s.runs[r].owner.ended
                   case AcquireShared(side) => side.Control? && s.runs[r].paired
                   case Ready => s.runs[r].paired
                   case _ => true
  }

  lemma StepKeepsPaired(s: System, step: Step, r: nat)
    requires Enabled(s, step) && Steady(s, step, r) && Paired(s, r) && Inv(s)
    ensures Paired(After(s, step), r)
  {
    AfterRun(s, step, r);
    if OfRun(step) && step.run == r { ActedKeepsPaired(s, step); }
  }

  lemma ActedKeepsPaired(s: System, step: Step)
    requires Enabled(s, step) && OfRun(step) && Steady(s, step, step.run) && Paired(s, step.run)
    ensures var r' := Acted(s, step, s.runs[step.run]);
      match r'.phase
      case AcquireKey(side) => side.Control? && !r'.owner.ended
      case AcquireShared(side) => side.Control? && r'.paired
      case Ready => r'.paired
      case _ => true
  {
  }

  lemma StepKeepsAlive(s: System, step: Step)
    requires Enabled(s, step) && OneLoss(s, step) && NoneLostBoth(s)
    ensures NoneLostBoth(After(s, step))
  {
    forall x | x in After(s, step).runs ensures Alive(After(s, step).runs[x]) {
      if x in s.runs {
        AfterRun(s, step, x);
        if OfRun(step) && step.run == x { ActedKeepsAlive(s, step); }
      }
    }
  }

  predicate SameEnded(r: Run, r': Run) {
    r'.owner.ended == r.owner.ended && r'.control.ended == r.control.ended
  }

  lemma AcquireEndsNoSession(s: System, step: Step)
    requires Enabled(s, step) && Acquires(step)
    ensures SameEnded(s.runs[step.run], Acted(s, step, s.runs[step.run]))
  {
  }

  lemma OtherEndsNoSession(s: System, step: Step)
    requires Enabled(s, step) && OfRun(step) && !Acquires(step) && !step.Die?
    ensures SameEnded(s.runs[step.run], Acted(s, step, s.runs[step.run]))
  {
    hide KeyTaken;
  }

  lemma ActedKeepsAlive(s: System, step: Step)
    requires Enabled(s, step) && OfRun(step) && OneLoss(s, step) && Alive(s.runs[step.run])
    ensures Alive(Acted(s, step, s.runs[step.run]))
  {
    if !step.Die? {
      hide Acted, Enabled;
      if Acquires(step) { AcquireEndsNoSession(s, step); } else { OtherEndsNoSession(s, step); }
    }
  }

  lemma SteadyIsOrderly(s: System, step: Step, r: nat)
    requires Enabled(s, step) && OneLoss(s, step) && Steady(s, step, r) && Paired(s, r) && NoneLostBoth(s)
    ensures Orderly(s, step)
  {
  }

  lemma {:induction false} PathKeepsExclusive(s: System, steps: seq<Step>, t: System, r: nat)
    requires Inv(s) && Solo(s) && NoneLostBoth(s) && Paired(s, r) && Path(s, steps, t, Some(r))
    ensures Exclusive(t)
    decreases |steps|
  {
    if steps != [] {
      var step := steps[0];
      SteadyIsOrderly(s, step, r);
      StepKeepsInv(s, step);
      StepKeepsSolo(s, step);
      StepKeepsAlive(s, step);
      StepKeepsPaired(s, step, r);
      hide Enabled, OneLoss, Steady, After, Inv, Solo, NoneLostBoth, Paired;
      PathKeepsExclusive(After(s, step), steps[1..], t, r);
    }
  }

  ghost predicate Reaches(s: System, t: System, spared: nat) {
    exists way :: Path(s, way, t, Some(spared))
  }

  /** Losing at most one session each is enough for a run waiting to take its
      control key exactly when its owner session is alive.  In any state reached
      in order, with every other run that begins paired: no way on breaks the
      exclusion if and only if it is. */
  lemma ExclusionIffOwnerAlive(states: seq<System>, steps: seq<Step>, i: nat, r: nat)
    requires Trace(states, steps) && AllOrderly(states, steps) && i < |states|
    requires NoneLostBoth(states[i]) && Waits(states[i], r)
    ensures (forall t | Reaches(states[i], t, r) :: Exclusive(t)) <==> !states[i].runs[r].owner.ended
  {
    TraceKeepsInv(states, steps, i);
    TraceKeepsSolo(states, steps, i);
    var s := states[i];
    if s.runs[r].owner.ended {
      var way, t, q := Breach(s, r);
      assert Reaches(s, t, r) && !Exclusive(t);
    } else {
      forall t | Reaches(s, t, r) ensures Exclusive(t) {
        var way :| Path(s, way, t, Some(r));
        PathKeepsExclusive(s, way, t, r);
      }
    }
  }

  /** Losing at most one session each is not enough, for `run_exclusive` nor for
      `run_bulk_exclusive`: from nothing, a run takes its owner key, loses that
      session unnoticed, and the rest follows. */
  lemma UnnoticedLossBreaksExclusion(bulk: bool) returns (steps: seq<Step>, t: System, q: nat)
    ensures Path(System(bulk, map[], false), steps, t, None) && q != 1 && Working(t, q) && Working(t, 1)
    ensures Alive(t.runs[q]) && Alive(t.runs[1])
  {
    var s := System(bulk, map[], false);
    var s1 := After(s, Spawn(1));
    OneStep(s, Spawn(1), None);
    StepKeepsInv(s, Spawn(1));
    var p2, s2 := Acquire(s1, 1, Owner, 1);
    PathUnrestricted(s1, p2, s2, Some(1));
    PathKeepsInv(s1, p2, s2, None);
    PathJoins(s, [Spawn(1)], s1, p2, s2, None);
    var s3 := After(s2, Die(1, Owner));
    OneStep(s2, Die(1, Owner), None);
    StepKeepsInv(s2, Die(1, Owner));
    PathJoins(s, [Spawn(1)] + p2, s2, [Die(1, Owner)], s3, None);
    var p4, s4;
    p4, s4, q := Breach(s3, 1);
    PathUnrestricted(s3, p4, s4, Some(1));
    PathJoins(s, [Spawn(1)] + p2 + [Die(1, Owner)], s3, p4, s4, None);
    steps, t := [Spawn(1)] + p2 + [Die(1, Owner)] + p4, s4;
  }

  lemma {:induction false} PathKeepsInv(s: System, steps: seq<Step>, t: System, spared: Option<nat>)
    requires Inv(s) && Path(s, steps, t, spared)
    ensures Inv(t)
    decreases |steps|
  {
    if steps != [] {
      StepKeepsInv(s, steps[0]);
      hide Enabled, OneLoss, Steady, After, Inv;
      PathKeepsInv(After(s, steps[0]), steps[1..], t, spared);
    }
  }

  // ── Being stopped ────────────────────────────────────────────────

  /** A run that will never start its operation: it has noticed a loss, or is on its
      way out. */
  predicate Doomed(r: Run) {
    r.op.NotStarted? && !r.phase.Running? && !r.phase.Draining? && (r.lost || r.phase.Leave? || r.phase.Finished?)
  }

  lemma AcquireKeepsDoomed(s: System, step: Step)
    requires Enabled(s, step) && Acquires(step) && Doomed(s.runs[step.run])
    ensures Doomed(Acted(s, step, s.runs[step.run]))
  {
    hide KeyTaken;
  }

  lemma OtherKeepsDoomed(s: System, step: Step)
    requires Enabled(s, step) && OfRun(step) && !Acquires(step) && Doomed(s.runs[step.run])
    ensures Doomed(Acted(s, step, s.runs[step.run]))
  {
    hide KeyTaken;
  }

  lemma ActedKeepsDoomed(s: System, step: Step)
    requires Enabled(s, step) && OfRun(step) && Doomed(s.runs[step.run])
    ensures Doomed(Acted(s, step, s.runs[step.run]))
  {
    hide Acted, Doomed, Enabled;
    if Acquires(step) { AcquireKeepsDoomed(s, step); } else { OtherKeepsDoomed(s, step); }
  }

  /** One step of a trace, as one run sees it. */
  lemma TraceStep(states: seq<System>, steps: seq<Step>, k: nat, r: nat)
    requires Trace(states, steps) && k < |steps| && r in states[k].runs
    ensures Enabled(states[k], steps[k]) && r in states[k + 1].runs
    ensures states[k + 1].runs[r] ==
      if OfRun(steps[k]) && steps[k].run == r then Acted(states[k], steps[k], states[k].runs[r]) else states[k].runs[r]
  {
    AfterRun(states[k], steps[k], r);
    hide Enabled, After, Acted;
  }

  lemma DoomedStep(states: seq<System>, steps: seq<Step>, k: nat, r: nat)
    requires Trace(states, steps) && k < |steps| && r in states[k].runs && Doomed(states[k].runs[r])
    ensures r in states[k + 1].runs && Doomed(states[k + 1].runs[r])
  {
    hide Enabled, After, Acted, Doomed;
    TraceStep(states, steps, k, r);
    if OfRun(steps[k]) && steps[k].run == r { ActedKeepsDoomed(states[k], steps[k]); }
  }

  lemma {:induction false} DoomedStays(states: seq<System>, steps: seq<Step>, i: nat, j: nat, r: nat)
    requires Trace(states, steps) && i <= j < |states| && r in states[i].runs && Doomed(states[i].runs[r])
    ensures r in states[j].runs && Doomed(states[j].runs[r])
    decreases j - i
  {
    if i < j {
      DoomedStep(states, steps, i, r);
      DoomedStays(states, steps, i + 1, j, r);
    }
  }

  /** Once a termination listener of a run has fired, an operation it had not started
      never starts. */
  lemma NoticedNeverStarts(states: seq<System>, steps: seq<Step>, i: nat, j: nat, r: nat, side: Side)
    requires Trace(states, steps) && i < j < |states| && steps[i] == Notice(r, side)
    requires states[i].runs[r].op.NotStarted?
    ensures r in states[j].runs && states[j].runs[r].op.NotStarted?
  {
    TraceKeepsInv(states, steps, i);
    assert RunOk(states[i].runs[r], states[i].bulk);
    DoomedStays(states, steps, i + 1, j, r);
  }

  lemma AcquireKeepsLoss(s: System, step: Step)
    requires Enabled(s, step) && Acquires(step) && s.runs[step.run].lost
    ensures Acted(s, step, s.runs[step.run]).lost
  {
    hide KeyTaken;
  }

  lemma OtherKeepsLoss(s: System, step: Step)
    requires Enabled(s, step) && OfRun(step) && !Acquires(step) && s.runs[step.run].lost
    ensures Acted(s, step, s.runs[step.run]).lost
  {
    hide KeyTaken;
  }

  lemma ActedKeepsLoss(s: System, step: Step)
    requires Enabled(s, step) && OfRun(step) && s.runs[step.run].lost
    ensures Acted(s, step, s.runs[step.run]).lost
  {
    hide Acted, Enabled;
    if Acquires(step) { AcquireKeepsLoss(s, step); } else { OtherKeepsLoss(s, step); }
  }

  lemma LossStep(states: seq<System>, steps: seq<Step>, k: nat, r: nat)
    requires Trace(states, steps) && k < |steps| && r in states[k].runs && states[k].runs[r].lost
    ensures r in states[k + 1].runs && states[k + 1].runs[r].lost
  {
    hide Enabled, After, Acted, Doomed;
    TraceStep(states, steps, k, r);
    if OfRun(steps[k]) && steps[k].run == r { ActedKeepsLoss(states[k], steps[k]); }
  }

  lemma {:induction false} LossStays(states: seq<System>, steps: seq<Step>, i: nat, j: nat, r: nat)
    requires Trace(states, steps) && i <= j < |states| && r in states[i].runs && states[i].runs[r].lost
    ensures r in states[j].runs && states[j].runs[r].lost
    decreases j - i
  {
    if i < j {
      LossStep(states, steps, i, r);
      LossStays(states, steps, i + 1, j, r);
    }
  }

  /** And a run still waiting on its operation is woken: it cancels the operation, once,
      if that still runs, and drains it. */
  lemma NoticedStops(states: seq<System>, steps: seq<Step>, i: nat, j: nat, r: nat, side: Side)
    requires Trace(states, steps) && i < j < |states| && steps[i] == Notice(r, side)
    requires r in states[j].runs && states[j].runs[r].phase.Running?
    ensures Enabled(states[j], Wake(r))
    ensures var r' := After(states[j], Wake(r)).runs[r];
      && r'.phase.Draining? && r'.op == states[j].runs[r].op
      && r'.cancels == if r'.op.InProgress? then 1 else 0
  {
    LossStays(states, steps, i + 1, j, r);
    TraceKeepsInv(states, steps, j);
    assert RunOk(states[j].runs[r], states[j].bulk);
  }

  /** A step of this kind, no loss of a session, leaves the system with that one run changed. */
  lemma ActedAlone(s: System, step: Step, r: nat, next: Run)
    requires Enabled(s, step) && OfRun(step) && step.run == r && !step.Die? && Acted(s, step, s.runs[r]) == next
    ensures OneLoss(s, step) && After(s, step) == s.(runs := s.runs[r := next])
  {
    hide Enabled, Acted;
  }

  lemma TwoSteps(s: System, a: Step, b: Step, spared: Option<nat>)
    requires Enabled(s, a) && OneLoss(s, a) && Enabled(After(s, a), b) && OneLoss(After(s, a), b) && spared.None?
    ensures Path(s, [a, b], After(After(s, a), b), spared)
  {
    hide Enabled, OneLoss, After;
    OneStep(After(s, a), b, spared);
    assert [a, b][1..] == [b];
  }

  /** A listener that fires while the operation runs stops it. */
  lemma NoticeAndWake(s: System, r: nat, side: Side) returns (t: System)
    requires Working(s, r) && s.runs[r].phase.Running? && s.runs[r].cancels == 0
    ensures Path(s, [Notice(r, side), Wake(r)], t, None)
    ensures With(s, r, s.runs[r].(phase := Draining, cancels := 1, lost := true), t)
  {
    hide KeyTaken, Path;
    ActedAlone(s, Notice(r, side), r, s.runs[r].(lost := true));
    var s1 := After(s, Notice(r, side));
    ActedAlone(s1, Wake(r), r, s1.runs[r].(phase := Draining, cancels := 1));
    t := After(s1, Wake(r));
    TwoSteps(s, Notice(r, side), Wake(r), None);
  }

  lemma EndAndDrain(s: System, r: nat) returns (t: System)
    requires Working(s, r) && s.runs[r].phase.Draining?
    ensures Path(s, [OpEnds(r), Drained(r)], t, None)
    ensures With(s, r, s.runs[r].(phase := Leave(Control), op := Ended), t)
  {
    hide KeyTaken, Path;
    ActedAlone(s, OpEnds(r), r, s.runs[r].(op := Ended));
    var s1 := After(s, OpEnds(r));
    ActedAlone(s1, Drained(r), r, s1.runs[r].(phase := Leave(Control)));
    t := After(s1, Drained(r));
    TwoSteps(s, OpEnds(r), Drained(r), None);
  }

  lemma NowAt(s: System, r: nat, run: Run, t: System)
    requires With(s, r, run, t)
    ensures r in t.runs && t.runs[r] == run && t.bulk == s.bulk
  {
  }

  /** Whichever listener fires while the operation runs, the run can go on to its
      clean-up, with both guards as they were. */
  lemma LossIsDrained(s: System, r: nat, side: Side) returns (t: System)
    requires Inv(s) && Working(s, r) && s.runs[r].phase.Running?
    ensures Path(s, [Notice(r, side), Wake(r)] + [OpEnds(r), Drained(r)], t, None)
    ensures With(s, r, s.runs[r].(phase := Leave(Control), op := Ended, cancels := 1, lost := true), t)
  {
    WorkingPhase(s.runs[r], s.bulk);
    hide Inv, RunOk, Path, With;
    var s2 := NoticeAndWake(s, r, side);
    NowAt(s, r, s.runs[r].(phase := Draining, cancels := 1, lost := true), s2);
    t := EndAndDrain(s2, r);
    WithTwice(s, r, s2.runs[r], s2, s2.runs[r].(phase := Leave(Control), op := Ended), t);
    PathJoins(s, [Notice(r, side), Wake(r)], s2, [OpEnds(r), Drained(r)], t, None);
  }

  /** A run cancelled before it started its operation, or refused a lock, never starts it. */
  lemma TurnedAwayNeverStarts(states: seq<System>, steps: seq<Step>, i: nat, j: nat, r: nat)
    requires Trace(states, steps) && i < j < |states|
    requires match steps[i]
      case Cancelled(x) => x == r && states[i].runs[r].op.NotStarted?
      case TryKey(x) => x == r && (KeyTaken(states[i], states[i].runs[r].phase.side)
                                   || At(states[i].runs[r], states[i].runs[r].phase.side).ended)
      case TryShared(x) => x == r && (states[i].recomputing
                                      || At(states[i].runs[r], states[i].runs[r].phase.side).ended)
      case _ => false
    ensures r in states[j].runs && states[j].runs[r].op.NotStarted?
  {
    TraceKeepsInv(states, steps, i);
    TurnedAway(states[i], steps[i], r);
    DoomedStays(states, steps, i + 1, j, r);
    hide Doomed, KeyTaken;
    DoomedNotStarted(states[j].runs[r]);
  }

  lemma DoomedNotStarted(r: Run)
    requires Doomed(r)
    ensures r.op.NotStarted?
  {
  }

  lemma TurnedAway(s: System, step: Step, r: nat)
    requires Inv(s) && Enabled(s, step) && r in s.runs
    requires match step
      case Cancelled(x) => x == r && s.runs[r].op.NotStarted?
      case TryKey(x) => x == r && (KeyTaken(s, s.runs[r].phase.side) || At(s.runs[r], s.runs[r].phase.side).ended)
      case TryShared(x) => x == r && (s.recomputing || At(s.runs[r], s.runs[r].phase.side).ended)
      case _ => false
    ensures r in After(s, step).runs && Doomed(After(s, step).runs[r])
  {
    AfterRun(s, step, r);
    assert RunOk(s.runs[r], s.bulk);
    hide After, Inv, LocksOk;
    if step.Cancelled? { CancelDooms(s, step); } else { RefusalDooms(s, step); }
  }

  lemma CancelDooms(s: System, step: Step)
    requires Enabled(s, step) && step.Cancelled? && RunOk(s.runs[step.run], s.bulk) && s.runs[step.run].op.NotStarted?
    ensures Doomed(Acted(s, step, s.runs[step.run]))
  {
  }

  lemma RefusalDooms(s: System, step: Step)
    requires Enabled(s, step) && Acquires(step) && RunOk(s.runs[step.run], s.bulk)
    requires At(s.runs[step.run], s.runs[step.run].phase.side).ended
      || (if step.TryKey? then KeyTaken(s, s.runs[step.run].phase.side) else s.recomputing)
    ensures Doomed(Acted(s, step, s.runs[step.run]))
  {
    hide KeyTaken;
  }

  /** Nobody is stranded: a run that is not over can take a step of its own, unless it
      waits for its operation, which can end; and a recompute can start when none runs
      and no guard holds its key. */
  lemma NeverStranded(s: System, r: nat)
    requires Inv(s) && r in s.runs && !s.runs[r].phase.Finished?
    ensures match s.runs[r].phase
      case AcquireKey(_) => Enabled(s, TryKey(r))
      case AcquireShared(_) => Enabled(s, TryShared(r))
      case Ready => Enabled(s, Begin(r))
      case Running => if s.runs[r].op.Ended? then Enabled(s, Wake(r)) else Enabled(s, OpEnds(r))
      case Draining => if s.runs[r].op.Ended? then Enabled(s, Drained(r)) else Enabled(s, OpEnds(r))
      case Leave(_) => Enabled(s, Return(r))
    ensures Enabled(s, StartRecompute) <==>
      !s.recomputing && forall x | x in s.runs :: !s.runs[x].owner.shared && !s.runs[x].control.shared
    ensures s.recomputing ==> Enabled(s, EndRecompute)
  {
    assert RunOk(s.runs[r], s.bulk);
  }
}
