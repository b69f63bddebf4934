/** `scripts/bm25_run_lock.py`: a bulk run guarded by two independent database
    sessions, either of which may be lost. */
module RunLock {

  datatype Side = Owner | Control

  /** What the server holds for one session.  An ended session holds nothing. */
  datatype Session = Session(ended: bool, key: bool, shared: bool)

  const IDLE := Session(false, false, false)
  const ENTERING := Run(AcquireKey(Owner), IDLE, IDLE, false, NotStarted, 0, false, false)

  datatype Op = NotStarted | InProgress | Ended

  /** Where a run is.  `Leave(side)` is the clean-up of that side's guard. */
  datatype Phase =
    | AcquireKey(side: Side) | AcquireShared(side: Side) | Ready
    | Running | Draining
    | Leave(side: Side) | Finished

  datatype Run = Run(
    phase: Phase, owner: Session, control: Session,
    lost: bool,           // the `lost` future: some termination listener has fired
    op: Op,
    cancels: nat,         // cancellations delivered to the operation
    deferred: bool,       // a cancellation of the run itself, held until the drain ends
    paired: bool)         // history: the owner session was alive when the control key was taken

  /** `bulk`: the guards of `run_bulk_exclusive`, which also hold the recompute
      key shared; otherwise those of `run_exclusive`. */
  datatype System = System(bulk: bool, runs: map<nat, Run>, recomputing: bool)

  datatype Step =
    | Spawn(run: nat)
    | TryKey(run: nat)                   // pg_try_advisory_lock
    | TryShared(run: nat)                // pg_try_advisory_lock_shared on the recompute key
    | Begin(run: nat)                    // `_run_until_guard_loss`
    | OpEnds(run: nat)                   // returns, fails, or finishes cleaning up
    | Wake(run: nat)                     // `asyncio.wait((task, lost))` returns
    | Cancelled(run: nat)                // a cancellation of the run, at whatever await it is in
    | Drained(run: nat)
    | UnlockShared(run: nat)
    | UnlockKey(run: nat)
    | Return(run: nat)                   // back to the pool, which resets the session
    | Die(run: nat, side: Side)          // the server ends a session
    | Notice(run: nat, side: Side)       // its termination listener fires, then or later
    | StartRecompute
    | EndRecompute

  function At(r: Run, side: Side): Session {
    if side.Owner? then r.owner else r.control
  }

  function Put(r: Run, side: Side, session: Session): Run {
    if side.Owner? then r.(owner := session) else r.(control := session)
  }

  predicate KeyTaken(s: System, side: Side) {
    exists r | r in s.runs :: At(s.runs[r], side).key
  }

  predicate SharedTaken(s: System) {
    exists r | r in s.runs :: s.runs[r].owner.shared || s.runs[r].control.shared
  }

  function Next(side: Side): Phase {
    if side.Owner? then AcquireKey(Control) else Ready
  }

  function Left(side: Side): Phase {
    if side.Control? then Leave(Owner) else Finished
  }

  predicate Enabled(s: System, step: Step) {
    match step
    case Spawn(r) => r !in s.runs
    case TryKey(r) => r in s.runs && s.runs[r].phase.AcquireKey?
    case TryShared(r) => r in s.runs && s.runs[r].phase.AcquireShared?
    case Begin(r) => r in s.runs && s.runs[r].phase.Ready?
    case OpEnds(r) => r in s.runs && s.runs[r].op.InProgress?
    case Wake(r) => r in s.runs && s.runs[r].phase.Running? && (s.runs[r].lost || s.runs[r].op.Ended?)
    case Cancelled(r) => r in s.runs && !s.runs[r].phase.Finished?
    case Drained(r) => r in s.runs && s.runs[r].phase.Draining? && s.runs[r].op.Ended?
    case UnlockShared(r) =>
      r in s.runs && s.runs[r].phase.Leave? && At(s.runs[r], s.runs[r].phase.side).shared
    case UnlockKey(r) =>
      r in s.runs && s.runs[r].phase.Leave?
      && At(s.runs[r], s.runs[r].phase.side).key && !At(s.runs[r], s.runs[r].phase.side).shared
    case Return(r) => r in s.runs && s.runs[r].phase.Leave?
    case Die(r, side) => r in s.runs && !At(s.runs[r], side).ended
    case Notice(r, _) => r in s.runs
    case StartRecompute => !s.recomputing && !SharedTaken(s)
    case EndRecompute => s.recomputing
  }

  /** What becomes of the run that takes the step. */
  function Acted(s: System, step: Step, r: Run): Run
    requires Enabled(s, step) && OfRun(step)
    requires r == s.runs[step.run]
  {
    match step
    case TryKey(_) =>
      var side := r.phase.side;
      if At(r, side).ended || KeyTaken(s, side) then r.(phase := Leave(side)) else
        Put(r, side, At(r, side).(key := true)).(
          phase := if s.bulk then AcquireShared(side) else Next(side),
          paired := side.Control? && !r.owner.ended)
    case TryShared(_) =>
      var side := r.phase.side;
      if At(r, side).ended || s.recomputing then r.(phase := Leave(side)) else
        Put(r, side, At(r, side).(shared := true)).(phase := Next(side))
    case Begin(_) => if r.lost then r.(phase := Leave(Control)) else r.(phase := Running, op := InProgress)
    case OpEnds(_) => r.(op := Ended)
    case Wake(_) => Stopped(r)
    case Cancelled(_) =>
      (match r.phase
       case AcquireKey(side) => r.(phase := Leave(side))
       case AcquireShared(side) => r.(phase := Leave(side))
       case Ready => r.(phase := Leave(Control))
       case Running => Stopped(r).(deferred := true)
       case Draining => r.(deferred := true)
       case Leave(side) => Reset(r, side)
       case Finished => r)
    case Drained(_) => r.(phase := Leave(Control))
    case UnlockShared(_) => Put(r, r.phase.side, At(r, r.phase.side).(shared := false))
    case UnlockKey(_) => Put(r, r.phase.side, At(r, r.phase.side).(key := false))
    case Return(_) => Reset(r, r.phase.side)
    case Die(_, side) => Put(r, side, Session(true, false, false))
    case Notice(_, _) => r.(lost := true)
  }

  /** `_cancel_and_drain` begins: cancel the operation once, if it still runs. */
  function Stopped(r: Run): Run {
    r.(phase := Draining, cancels := if r.op.InProgress? then r.cancels + 1 else r.cancels)
  }

  function Reset(r: Run, side: Side): Run {
    Put(r, side, Session(At(r, side).ended, false, false)).(phase := Left(side))
  }

  function After(s: System, step: Step): System
    requires Enabled(s, step)
  {
    match step
    case Spawn(r) => s.(runs := s.runs[r := ENTERING])
    case StartRecompute => s.(recomputing := true)
    case EndRecompute => s.(recomputing := false)
    case _ => s.(runs := s.runs[step.run := Acted(s, step, s.runs[step.run])])
  }

  /** A run of the system from nothing. */
  ghost predicate Trace(states: seq<System>, steps: seq<Step>) {
    && |states| == |steps| + 1
    && states[0].runs == map[] && !states[0].recomputing
    && (forall i | 0 <= i < |steps| :: Enabled(states[i], steps[i]) && states[i + 1] == After(states[i], steps[i]))
  }

  // ── Shape of one run ─────────────────────────────────────────────

  predicate Holds(session: Session, bulk: bool) {
    session.ended || (session.key && (bulk ==> session.shared))
  }

  predicate HoldsNothing(session: Session) {
    !session.key && !session.shared
  }

  /** Which guards a run holds, unless their session has ended, and what has
      become of its operation. */
  predicate RunOk(r: Run, bulk: bool) {
    && (r.owner.ended ==> HoldsNothing(r.owner)) && (r.control.ended ==> HoldsNothing(r.control))
    && r.cancels <= 1
    && match r.phase
       case AcquireKey(side) => HoldsNothing(At(r, side)) && Opened(r, side, bulk)
       case AcquireShared(side) =>
         bulk && (At(r, side).ended || At(r, side).key) && !At(r, side).shared && Opened(r, side, bulk)
       case Ready => Holds(r.owner, bulk) && Holds(r.control, bulk) && r.op.NotStarted? && r.cancels == 0
       case Running => Holds(r.owner, bulk) && Holds(r.control, bulk) && !r.op.NotStarted? && r.cancels == 0
       case Draining =>
         Holds(r.owner, bulk) && Holds(r.control, bulk) && !r.op.NotStarted? && (r.op.InProgress? ==> r.cancels == 1)
       case Leave(side) =>
         !r.op.InProgress? && (side.Control? ==> Holds(r.owner, bulk)) && (side.Owner? ==> HoldsNothing(r.control))
       case Finished => !r.op.InProgress? && HoldsNothing(r.owner) && HoldsNothing(r.control)
  }

  predicate Opened(r: Run, side: Side, bulk: bool) {
    && r.op.NotStarted? && r.cancels == 0
    && (if side.Owner? then HoldsNothing(r.control) else Holds(r.owner, bulk))
  }

  predicate Acquires(step: Step) {
    step.TryKey? || step.TryShared?
  }

  predicate Releases(step: Step) {
    step.UnlockShared? || step.UnlockKey? || step.Return?
  }

  predicate Loses(step: Step) {
    step.Die? || step.Notice?
  }

  predicate Operates(step: Step) {
    step.Begin? || step.OpEnds? || step.Wake? || step.Drained?
  }

  predicate OfRun(step: Step) {
    Acquires(step) || Releases(step) || Loses(step) || Operates(step) || step.Cancelled?
  }

  lemma AcquireKeepsRunOk(s: System, step: Step)
    requires Enabled(s, step) && Acquires(step) && RunOk(s.runs[step.run], s.bulk)
    ensures RunOk(Acted(s, step, s.runs[step.run]), s.bulk)
  {
  }

  lemma ReleaseKeepsRunOk(s: System, step: Step)
    requires Enabled(s, step) && Releases(step) && RunOk(s.runs[step.run], s.bulk)
    ensures RunOk(Acted(s, step, s.runs[step.run]), s.bulk)
  {
  }

  lemma LossKeepsRunOk(s: System, step: Step)
    requires Enabled(s, step) && Loses(step) && RunOk(s.runs[step.run], s.bulk)
    ensures RunOk(Acted(s, step, s.runs[step.run]), s.bulk)
  {
    if step.Die? { DeathKeepsRunOk(s.runs[step.run], step.side, s.bulk); }
  }

  lemma DeathKeepsRunOk(r: Run, side: Side, bulk: bool)
    requires RunOk(r, bulk)
    ensures RunOk(Put(r, side, Session(true, false, false)), bulk)
  {
  }

  lemma OperateKeepsRunOk(s: System, step: Step)
    requires Enabled(s, step) && Operates(step) && RunOk(s.runs[step.run], s.bulk)
    ensures RunOk(Acted(s, step, s.runs[step.run]), s.bulk)
  {
  }

  lemma CancelKeepsRunOk(s: System, step: Step)
    requires Enabled(s, step) && step.Cancelled? && RunOk(s.runs[step.run], s.bulk)
    ensures RunOk(Acted(s, step, s.runs[step.run]), s.bulk)
  {
  }

  lemma ActedKeepsRunOk(s: System, step: Step)
    requires Enabled(s, step) && OfRun(step) && RunOk(s.runs[step.run], s.bulk)
    ensures RunOk(Acted(s, step, s.runs[step.run]), s.bulk)
  {
    if Acquires(step) {
      AcquireKeepsRunOk(s, step);
    } else if Releases(step) {
      ReleaseKeepsRunOk(s, step);
    } else if Loses(step) {
      LossKeepsRunOk(s, step);
    } else if Operates(step) {
      OperateKeepsRunOk(s, step);
    } else {
      CancelKeepsRunOk(s, step);
    }
  }

  // ── What every step keeps ────────────────────────────────────────

  /** The server's promise about advisory locks. */
  ghost predicate LocksOk(s: System) {
    && (forall a, b, side | a in s.runs && b in s.runs && At(s.runs[a], side).key && At(s.runs[b], side).key :: a == b)
    && (s.recomputing ==> !SharedTaken(s))
  }

  ghost predicate Inv(s: System) {
    LocksOk(s) && forall r | r in s.runs :: RunOk(s.runs[r], s.bulk)
  }

  lemma StepKeepsInv(s: System, step: Step)
    requires Inv(s) && Enabled(s, step)
    ensures Inv(After(s, step)) && After(s, step).bulk == s.bulk
  {
    var s' := After(s, step);
    if OfRun(step) {
      ActedKeepsRunOk(s, step);
      StepKeepsLocks(s, step);
    }
  }

  /** A step takes no lock but a free one. */
  predicate TakesFree(s: System, r: Run, r': Run) {
    && (r'.owner.key ==> r.owner.key || !KeyTaken(s, Owner))
    && (r'.control.key ==> r.control.key || !KeyTaken(s, Control))
    && (r'.owner.shared || r'.control.shared ==> r.owner.shared || r.control.shared || !s.recomputing)
  }

  lemma AcquireTakesFree(s: System, step: Step)
    requires Enabled(s, step) && Acquires(step)
    ensures TakesFree(s, s.runs[step.run], Acted(s, step, s.runs[step.run]))
  {
  }

  lemma OtherTakesNothing(s: System, step: Step)
    requires Enabled(s, step) && OfRun(step) && !Acquires(step)
    ensures TakesFree(s, s.runs[step.run], Acted(s, step, s.runs[step.run]))
  {
    hide KeyTaken;
  }

  lemma ActedTakesFree(s: System, step: Step)
    requires Enabled(s, step) && OfRun(step)
    ensures TakesFree(s, s.runs[step.run], Acted(s, step, s.runs[step.run]))
  {
    hide Acted, TakesFree, Enabled;
    if Acquires(step) { AcquireTakesFree(s, step); } else { OtherTakesNothing(s, step); }
  }

  lemma UpdateKeepsLocks(s: System, id: nat, r': Run)
    requires LocksOk(s) && id in s.runs && TakesFree(s, s.runs[id], r')
    ensures LocksOk(s.(runs := s.runs[id := r']))
  {
    var s' := s.(runs := s.runs[id := r']);
    forall x, side | x in s.runs && x != id && At(s.runs[x], side).key ensures !At(r', side).key {
      assert KeyTaken(s, side);
    }
    if s'.recomputing {
      forall x | x in s'.runs ensures !s'.runs[x].owner.shared && !s'.runs[x].control.shared {
        assert x in s.runs && !s.runs[x].owner.shared && !s.runs[x].control.shared;
      }
    }
  }

  lemma StepKeepsLocks(s: System, step: Step)
    requires LocksOk(s) && Enabled(s, step) && OfRun(step)
    ensures LocksOk(After(s, step))
  {
    ActedTakesFree(s, step);
    UpdateKeepsLocks(s, step.run, Acted(s, step, s.runs[step.run]));
  }

  lemma {:induction false} TraceKeepsInv(states: seq<System>, steps: seq<Step>, i: nat)
    requires Trace(states, steps) && i < |states|
    ensures Inv(states[i]) && states[i].bulk == states[0].bulk
  {
    if i > 0 {
      TraceKeepsInv(states, steps, i - 1);
      StepKeepsInv(states[i - 1], steps[i - 1]);
    }
  }

  // ── Exclusion ────────────────────────────────────────────────────

  predicate Working(s: System, r: nat) {
    r in s.runs && s.runs[r].op.InProgress?
  }

  function Other(side: Side): Side {
    if side.Owner? then Control else Owner
  }

  predicate Alive(r: Run) {
    !r.owner.ended || !r.control.ended
  }

  /** A working run does not lose its last guard, and a run that begins has a
      guard left and took its control key while its owner session was alive. */
  predicate Orderly(s: System, step: Step) {
    match step
    case Die(r, side) => Working(s, r) ==> !At(s.runs[r], Other(side)).ended
    case Begin(r) => r in s.runs && !s.runs[r].lost ==> s.runs[r].paired && Alive(s.runs[r])
    case _ => true
  }

  ghost predicate AllOrderly(states: seq<System>, steps: seq<Step>) {
    |states| == |steps| + 1 && forall i | 0 <= i < |steps| :: Orderly(states[i], steps[i])
  }

  /** Past taking both keys at once, with a guard left. */
  predicate Entered(r: Run) {
    && (r.phase == AcquireShared(Control) || r.phase.Ready? || r.phase.Running? || r.phase.Draining?)
    && r.paired && Alive(r)
  }

  /** At most one run has entered, and whoever works has. */
  ghost predicate Solo(s: System) {
    && (forall r | Working(s, r) :: Entered(s.runs[r]))
    && (forall a, b | a in s.runs && b in s.runs && Entered(s.runs[a]) && Entered(s.runs[b]) :: a == b)
  }

  /** No two operations are in progress together. */
  ghost predicate Exclusive(s: System) {
    forall a, b | Working(s, a) && Working(s, b) :: a == b
  }

  /** A run that has entered still holds a key. */
  lemma EnteredHolds(r: Run, bulk: bool)
    requires RunOk(r, bulk) && Entered(r)
    ensures (!r.owner.ended && r.owner.key) || (!r.control.ended && r.control.key)
  {
  }

  /** Nobody else has entered when both keys are taken. */
  lemma EntersAlone(s: System, a: nat, r: nat)
    requires Inv(s) && a in s.runs && Entered(s.runs[a])
    requires r in s.runs && s.runs[r].phase == AcquireKey(Control) && !s.runs[r].owner.ended && !KeyTaken(s, Control)
    ensures a == r
  {
    assert RunOk(s.runs[a], s.bulk) && RunOk(s.runs[r], s.bulk);
    EnteredHolds(s.runs[a], s.bulk);
    assert At(s.runs[r], Owner).key;
    assert At(s.runs[a], Control).key ==> KeyTaken(s, Control);
    assert At(s.runs[a], Owner).key;
  }

  /** How a run may come to have entered, and stay so while it works. */
  predicate Enters(s: System, step: Step, r: Run, r': Run) {
    && (r'.op.InProgress? ==> Entered(r'))
    && (Entered(r') && !Entered(r) ==>
          step.TryKey? && r.phase == AcquireKey(Control) && !r.owner.ended && !KeyTaken(s, Control))
  }

  lemma AcquireEnters(s: System, step: Step)
    requires Enabled(s, step) && Acquires(step) && RunOk(s.runs[step.run], s.bulk)
    ensures Enters(s, step, s.runs[step.run], Acted(s, step, s.runs[step.run]))
  {
  }

  lemma ReleaseEnters(s: System, step: Step)
    requires Enabled(s, step) && Releases(step) && RunOk(s.runs[step.run], s.bulk)
    ensures Enters(s, step, s.runs[step.run], Acted(s, step, s.runs[step.run]))
  {
  }

  lemma LossEnters(s: System, step: Step)
    requires Enabled(s, step) && Loses(step) && Orderly(s, step)
    requires Working(s, step.run) ==> Entered(s.runs[step.run])
    ensures Enters(s, step, s.runs[step.run], Acted(s, step, s.runs[step.run]))
  {
  }

  lemma OperateEnters(s: System, step: Step)
    requires Enabled(s, step) && (Operates(step) || step.Cancelled?)
    requires RunOk(s.runs[step.run], s.bulk) && Orderly(s, step)
    requires Working(s, step.run) ==> Entered(s.runs[step.run])
    ensures Enters(s, step, s.runs[step.run], Acted(s, step, s.runs[step.run]))
  {
  }

  lemma ActedEnters(s: System, step: Step)
    requires Enabled(s, step) && OfRun(step) && RunOk(s.runs[step.run], s.bulk) && Orderly(s, step)
    requires Working(s, step.run) ==> Entered(s.runs[step.run])
    ensures Enters(s, step, s.runs[step.run], Acted(s, step, s.runs[step.run]))
  {
    hide Acted, Enters, Orderly, RunOk, Entered, Enabled;
    if Acquires(step) {
      AcquireEnters(s, step);
    } else if Releases(step) {
      ReleaseEnters(s, step);
    } else if Loses(step) {
      LossEnters(s, step);
    } else {
      OperateEnters(s, step);
    }
  }

  lemma StepKeepsSolo(s: System, step: Step)
    requires Inv(s) && Solo(s) && Enabled(s, step) && Orderly(s, step)
    ensures Solo(After(s, step))
  {
    if OfRun(step) {
      var id := step.run;
      ActedEnters(s, step);
      if step.TryKey? && s.runs[id].phase == AcquireKey(Control) && !s.runs[id].owner.ended && !KeyTaken(s, Control) {
        forall a | a in s.runs && Entered(s.runs[a]) ensures a == id { EntersAlone(s, a, id); }
      }
      UpdateKeepsSolo(s, id, Acted(s, step, s.runs[id]));
    }
  }

  lemma UpdateKeepsSolo(s: System, id: nat, r': Run)
    requires Solo(s) && id in s.runs && (r'.op.InProgress? ==> Entered(r'))
    requires Entered(r') ==> Entered(s.runs[id]) || forall a | a in s.runs && Entered(s.runs[a]) :: a == id
    ensures Solo(s.(runs := s.runs[id := r']))
  {
    var s' := s.(runs := s.runs[id := r']);
    forall r | Working(s', r) ensures Entered(s'.runs[r]) {
      assert r != id ==> Working(s, r);
    }
  }

  lemma {:induction false} TraceKeepsSolo(states: seq<System>, steps: seq<Step>, i: nat)
    requires Trace(states, steps) && AllOrderly(states, steps) && i < |states|
    ensures Solo(states[i])
  {
    if i > 0 {
      TraceKeepsSolo(states, steps, i - 1);
      TraceKeepsInv(states, steps, i - 1);
      assert Orderly(states[i - 1], steps[i - 1]);
      StepKeepsSolo(states[i - 1], steps[i - 1]);
    }
  }

  /** Over every interleaving of runs, session losses and cancellations in which
      no working run loses its last guard, and no run begins that has no guard left
      or took its control key after its owner session had ended: no two operations
      are in progress together, and no statistics recompute runs beside one. */
  lemma MutualExclusion(states: seq<System>, steps: seq<Step>, i: nat)
    requires Trace(states, steps) && AllOrderly(states, steps) && i < |states|
    ensures Exclusive(states[i])
    ensures states[i].bulk && states[i].recomputing ==> forall r :: !Working(states[i], r)
  {
    TraceKeepsInv(states, steps, i);
    TraceKeepsSolo(states, steps, i);
    var s := states[i];
    forall r | s.bulk && s.recomputing ensures !Working(s, r) {
      if r in s.runs { assert RunOk(s.runs[r], s.bulk); }
    }
  }

  // ── Release ──────────────────────────────────────────────────────

  /** No surviving guard is released before its run's operation is done: while it
      is in progress, a lock goes only with its session.  A cancellation of the
      run reaches the operation once and is otherwise held back. */
  lemma GuardOutlivesOperation(s: System, step: Step, r: nat, side: Side)
    requires Inv(s) && Enabled(s, step) && Working(s, r)
    ensures r in After(s, step).runs
    ensures At(After(s, step).runs[r], side) == At(s.runs[r], side) || step == Die(r, side)
    ensures After(s, step).runs[r].phase.Running? || After(s, step).runs[r].phase.Draining?
    ensures step == Cancelled(r) ==> After(s, step).runs[r].deferred && After(s, step).runs[r].cancels == 1
  {
    WorkingPhase(s.runs[r], s.bulk);
    AfterRun(s, step, r);
    if OfRun(step) && step.run == r { ActedWhileWorking(s, step, side); }
  }

  /** A step changes no run but its own. */
  lemma AfterRun(s: System, step: Step, r: nat)
    requires Enabled(s, step) && r in s.runs
    ensures r in After(s, step).runs
    ensures After(s, step).runs[r] == if OfRun(step) && step.run == r then Acted(s, step, s.runs[r]) else s.runs[r]
  {
  }

  lemma WorkingPhase(r: Run, bulk: bool)
    requires RunOk(r, bulk) && r.op.InProgress?
    ensures (r.phase.Running? && r.cancels == 0) || (r.phase.Draining? && r.cancels == 1)
  {
  }

  lemma ActedWhileWorking(s: System, step: Step, side: Side)
    requires Enabled(s, step) && OfRun(step)
    requires var r := s.runs[step.run];
      r.op.InProgress? && ((r.phase.Running? && r.cancels == 0) || (r.phase.Draining? && r.cancels == 1))
    ensures var r, r' := s.runs[step.run], Acted(s, step, s.runs[step.run]);
      && (At(r', side) == At(r, side) || step == Die(step.run, side))
      && (r'.phase.Running? || r'.phase.Draining?)
      && (step.Cancelled? ==> r'.deferred && r'.cancels == 1)
  {
  }

  /** On every exit path every lock has been given back, or went with its
      session; the operation was cancelled at most once and is over. */
  lemma FinishedHoldsNothing(states: seq<System>, steps: seq<Step>, i: nat, r: nat)
    requires Trace(states, steps) && i < |states| && r in states[i].runs && states[i].runs[r].phase.Finished?
    ensures HoldsNothing(states[i].runs[r].owner) && HoldsNothing(states[i].runs[r].control)
    ensures !Working(states[i], r) && states[i].runs[r].cancels <= 1
  {
    TraceKeepsInv(states, steps, i);
    assert RunOk(states[i].runs[r], states[i].bulk);
  }

  /** An explicit unlock frees just that lock, at once; the control guard is given back
      before the owner guard, and a shared lock before its key. */
  lemma UnlockFrees(s: System, step: Step)
    requires Inv(s) && Enabled(s, step) && (step.UnlockKey? || step.UnlockShared?)
    ensures var r, r' := s.runs[step.run], After(s, step).runs[step.run];
      && r.phase.Leave? && r'.phase == r.phase
      && At(r', Other(r.phase.side)) == At(r, Other(r.phase.side))
      && At(r', r.phase.side).ended == At(r, r.phase.side).ended
      && (step.UnlockKey? ==> !At(r', r.phase.side).key && !At(r, r.phase.side).shared)
      && (step.UnlockShared? ==> !At(r', r.phase.side).shared && At(r', r.phase.side).key == At(r, r.phase.side).key)
      && (r.phase.side.Owner? ==> HoldsNothing(r.control))
  {
    assert RunOk(s.runs[step.run], s.bulk);
    hide KeyTaken;
  }
}
