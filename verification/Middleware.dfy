/** `backend/app/http_middleware.py`: CancelDisconnectedReadMiddleware, one call
    on a read-only path, step by step between its awaits. */
module Middleware {
  import opened Options

  /** An ASGI message; `body` stands for a body or the promise of more. */
  datatype Message = Disconnect | Request(id: nat, body: bool)

  datatype Ending = Success | Failure | Cancellation

  /** A child task: how it ended, and how often the middleware cancelled it. */
  datatype Task = Task(ended: Option<Ending>, cancels: nat)

  const STARTED := Task(None, 0)

  datatype Pc =
    | AwaitFirst                   // `await receive()`
    | Inline                       // a body: the application runs in this task
    | WaitFirst                    // wait for either child
    | WaitRequest                  // disconnected: wait for the cancelled request
    | Drain                        // the `finally` loop
    | Over(outcome: Ending)

  datatype State = State(
    pc: Pc,
    first: Message, replayed: bool,
    consumed: seq<Message>,        // read from the underlying `receive`
    received: seq<Message>,        // handed to the application
    disconnected: bool,            // the event
    request: Task, watcher: Task,
    inFlight: Ending,              // what the `finally` will re-raise
    outerCancelled: bool,
    arrived: nat)                  // cancellations of the call since its children started

  datatype Step =
    | First(m: Message)
    | FirstRaises(how: Ending)
    | InlineReceive(m: Message)    // the application reads; `m` is used after the replay
    | InlineEnds(how: Ending)
    | Relay                        // the application reads
    | Watch(m: Message)            // the watcher reads
    | RequestEnds(how: Ending)
    | WatcherRaises(how: Ending)
    | Wake                         // a wait returns
    | Cancelled                    // the call itself is cancelled
    | Drained

  const INITIAL := State(AwaitFirst, Disconnect, false, [], [], false, STARTED, STARTED, Success, false, 0)

  predicate Started(s: State) {
    s.pc.WaitFirst? || s.pc.WaitRequest? || s.pc.Drain?
  }

  predicate Enabled(s: State, step: Step) {
    match step
    case First(_) => s.pc.AwaitFirst?
    case FirstRaises(how) => s.pc.AwaitFirst? && !how.Success?
    case InlineReceive(_) => s.pc.Inline?
    case InlineEnds(_) => s.pc.Inline?
    case Relay => Started(s) && s.request.ended.None? && (!s.replayed || s.disconnected)
    case Watch(_) => Started(s) && s.watcher.ended.None?
    case RequestEnds(_) => Started(s) && s.request.ended.None?
    case WatcherRaises(how) => Started(s) && s.watcher.ended.None? && !how.Success?
    case Wake =>
      || (s.pc.WaitFirst? && (s.request.ended.Some? || s.watcher.ended.Some?))
      || (s.pc.WaitRequest? && s.request.ended.Some?)
    case Cancelled => s.pc.AwaitFirst? || Started(s)
    case Drained => s.pc.Drain? && s.request.ended.Some? && s.watcher.ended.Some?
  }

  /** `finally`: cancel each child not done and not already being cancelled. */
  function Finally(s: State): State {
    s.(pc := Drain, request := CancelOnce(s.request), watcher := CancelOnce(s.watcher))
  }

  function CancelOnce(t: Task): Task {
    if t.ended.None? && t.cancels == 0 then t.(cancels := 1) else t
  }

  /** An ended child's result, raised here: `except CancelledError` keeps a
      cancellation for later, any other exception is in flight. */
  function Raise(s: State, how: Ending): State {
    if how.Cancellation? then s.(outerCancelled := true) else s.(inFlight := how)
  }

  function Woken(s: State): State
    requires Enabled(s, Wake)
  {
    if s.pc.WaitRequest? then
      Finally(if s.request.ended.value.Failure? then s.(inFlight := Failure) else s)
    else if s.request.ended.Some? then
      Finally(Raise(s, s.request.ended.value))
    else if s.watcher.ended.value.Success? then
      s.(pc := WaitRequest, request := s.request.(cancels := s.request.cancels + 1))
    else
      Finally(Raise(s, s.watcher.ended.value))
  }

  function After(s: State, step: Step): State
    requires Enabled(s, step)
  {
    match step
    case First(m) =>
      s.(first := m, consumed := [m],
         pc := if m.Disconnect? then Over(Success) else if m.body then Inline else WaitFirst)
    case FirstRaises(how) => s.(pc := Over(how))
    case InlineReceive(m) =>
      if !s.replayed then s.(replayed := true, received := s.received + [s.first])
      else s.(consumed := s.consumed + [m], received := s.received + [m])
    case InlineEnds(how) => s.(pc := Over(how))
    case Relay => s.(replayed := true, received := s.received + [if s.replayed then Disconnect else s.first])
    case Watch(m) =>
      s.(consumed := s.consumed + [m], disconnected := s.disconnected || m.Disconnect?,
         watcher := if m.Disconnect? then s.watcher.(ended := Some(Success)) else s.watcher)
    case RequestEnds(how) => s.(request := s.request.(ended := Some(how)))
    case WatcherRaises(how) => s.(watcher := s.watcher.(ended := Some(how)))
    case Wake => Woken(s)
    case Cancelled =>
      if s.pc.AwaitFirst? then s.(pc := Over(Cancellation)) else
        var noted := s.(outerCancelled := true, arrived := s.arrived + 1);
        if s.pc.Drain? then noted else Finally(noted)
    case Drained => s.(pc := Over(if s.outerCancelled then Cancellation else s.inFlight))
  }

  /** One call, under one schedule. */
  ghost predicate Run(states: seq<State>, steps: seq<Step>) {
    && |states| == |steps| + 1 && states[0] == INITIAL
    && (forall i | 0 <= i < |steps| :: Enabled(states[i], steps[i]) && states[i + 1] == After(states[i], steps[i]))
  }

  // ── The children ─────────────────────────────────────────────────

  /** The call got past its first message without a body. */
  predicate Spawned(s: State) {
    s.consumed != [] && s.consumed[0].Request? && !s.consumed[0].body
  }

  /** A call that has only read, or that runs the application itself, has no children. */
  predicate NoChildren(s: State) {
    s.request == STARTED && s.watcher == STARTED && s.arrived == 0
  }

  predicate Reasons(s: State) {
    && (s.arrived > 0 ==> s.outerCancelled)
    && (s.outerCancelled && s.arrived == 0 ==>
          (s.request == Task(Some(Cancellation), 0)) || (s.watcher == Task(Some(Cancellation), 0)))
    && !s.inFlight.Cancellation?
    && (s.inFlight.Success? && !s.outerCancelled ==>
          s.request.ended == Some(Success)
          || (s.request.ended == Some(Cancellation) && s.disconnected && s.request.cancels == 1))
  }

  predicate ChildrenOk(s: State) {
    && s.request.cancels <= 1 && s.watcher.cancels <= 1
    && (s.watcher.ended == Some(Success) ==> s.disconnected)
    && match s.pc
       case AwaitFirst => s == INITIAL
       case Inline => NoChildren(s) && !Spawned(s) && s.consumed != []
       case WaitFirst =>
         && Spawned(s) && s.request.cancels == 0 && s.watcher.cancels == 0
         && s.arrived == 0 && !s.outerCancelled && s.inFlight.Success?
       case WaitRequest =>
         && Spawned(s) && s.request.cancels == 1 && s.watcher == Task(Some(Success), 0)
         && s.arrived == 0 && !s.outerCancelled && s.inFlight.Success?
       case Drain =>
         && Spawned(s) && Reasons(s)
         && (s.request.ended.None? ==> s.request.cancels == 1) && (s.watcher.ended.None? ==> s.watcher.cancels == 1)
       case Over(how) =>
         if Spawned(s) then Reasons(s) && s.request.ended.Some? && s.watcher.ended.Some?
                            && how == (if s.outerCancelled then Cancellation else s.inFlight)
         else NoChildren(s)
  }

  predicate Ends(step: Step) {
    step.RequestEnds? || step.WatcherRaises?
  }

  lemma ReadKeepsChildren(s: State, step: Step)
    requires ChildrenOk(s) && Enabled(s, step) && Reads(step)
    ensures ChildrenOk(After(s, step))
  {
  }

  lemma InlineKeepsChildren(s: State, step: Step)
    requires ChildrenOk(s) && Enabled(s, step) && (step.FirstRaises? || step.InlineEnds?)
    ensures ChildrenOk(After(s, step))
  {
  }

  lemma EndKeepsChildren(s: State, step: Step)
    requires ChildrenOk(s) && Enabled(s, step) && Ends(step)
    ensures ChildrenOk(After(s, step))
  {
  }

  lemma WakeKeepsChildren(s: State)
    requires ChildrenOk(s) && Enabled(s, Wake)
    ensures ChildrenOk(After(s, Wake))
  {
  }

  lemma CancelKeepsChildren(s: State)
    requires ChildrenOk(s) && Enabled(s, Cancelled)
    ensures ChildrenOk(After(s, Cancelled))
  {
  }

  lemma DrainKeepsChildren(s: State)
    requires ChildrenOk(s) && Enabled(s, Drained)
    ensures ChildrenOk(After(s, Drained))
  {
  }

  lemma StepKeepsChildren(s: State, step: Step)
    requires ChildrenOk(s) && Enabled(s, step)
    ensures ChildrenOk(After(s, step))
  {
    hide ChildrenOk, Enabled, After;
    if Reads(step) {
      ReadKeepsChildren(s, step);
    } else if Ends(step) {
      EndKeepsChildren(s, step);
    } else if step.Wake? {
      WakeKeepsChildren(s);
    } else if step.Cancelled? {
      CancelKeepsChildren(s);
    } else if step.Drained? {
      DrainKeepsChildren(s);
    } else {
      InlineKeepsChildren(s, step);
    }
  }

  lemma {:induction false} RunKeepsChildren(states: seq<State>, steps: seq<Step>, i: nat)
    requires Run(states, steps) && i < |states|
    ensures ChildrenOk(states[i])
  {
    if i > 0 {
      RunKeepsChildren(states, steps, i - 1);
      StepKeepsChildren(states[i - 1], steps[i - 1]);
    }
  }

  /** For every schedule of messages, endings and cancellations: the call ends
      only when both children have, and each was cancelled at most once. */
  lemma CallDrainsChildren(states: seq<State>, steps: seq<Step>, i: nat)
    requires Run(states, steps) && i < |states|
    ensures states[i].request.cancels <= 1 && states[i].watcher.cancels <= 1
    ensures states[i].pc.Over? && Spawned(states[i]) ==>
              states[i].request.ended.Some? && states[i].watcher.ended.Some?
  {
    RunKeepsChildren(states, steps, i);
  }

  /** A cancellation of the call that arrived once its children had started is
      what the call raises; with none, it raises one only for a child that ended
      cancelled of its own accord. */
  lemma CancellationIsReraised(states: seq<State>, steps: seq<Step>, i: nat)
    requires Run(states, steps) && i < |states| && states[i].pc.Over? && Spawned(states[i])
    ensures states[i].arrived > 0 ==> states[i].pc.outcome.Cancellation?
    ensures states[i].arrived == 0 && states[i].pc.outcome.Cancellation? ==>
      states[i].request == Task(Some(Cancellation), 0) || states[i].watcher == Task(Some(Cancellation), 0)
  {
    RunKeepsChildren(states, steps, i);
  }

  /** The call returns normally only if the request succeeded, or was cancelled
      because the client had really gone. */
  lemma NormalReturn(states: seq<State>, steps: seq<Step>, i: nat)
    requires Run(states, steps) && i < |states| && states[i].pc == Over(Success) && Spawned(states[i])
    ensures states[i].request.ended == Some(Success)
         || (states[i].request.ended == Some(Cancellation) && states[i].disconnected)
  {
    RunKeepsChildren(states, steps, i);
  }

  /** What the call raises by itself, given how things stood when the first wait
      returned and how the request ended: the request's own result if it was done;
      else, after a disconnect, only a failure of the cancelled request; else the
      watcher's. */
  function Verdict(woken: State, request: Option<Ending>): Ending {
    match woken.request.ended
    case Some(how) => how
    case None =>
      if woken.watcher.ended != Some(Success) then
        if woken.watcher.ended.Some? then woken.watcher.ended.value else Success
      else if request == Some(Failure) then Failure else Success
  }

  /** After the first wait, while nobody cancels the call. */
  predicate Deciding(woken: State, s: State) {
    && (s.pc.WaitRequest? || s.pc.Drain? || s.pc.Over?)
    && (woken.request.ended.Some? ==> s.request.ended == woken.request.ended)
    && (s.arrived == 0 ==>
          match s.pc
          case WaitRequest =>
            && woken.request.ended.None? && woken.watcher.ended == Some(Success)
            && !s.outerCancelled && s.inFlight.Success?
          case Drain =>
            && (woken.request.ended.None? && woken.watcher.ended == Some(Success) ==> s.request.ended.Some?)
            && Verdict(woken, s.request.ended) == if s.outerCancelled then Cancellation else s.inFlight
          case Over(how) => how == Verdict(woken, s.request.ended)
          case _ => false)
  }

  lemma StepKeepsDeciding(woken: State, s: State, step: Step)
    requires Deciding(woken, s) && Enabled(s, step)
    ensures Deciding(woken, After(s, step)) && s.arrived <= After(s, step).arrived
  {
  }

  lemma WakeDecides(s: State)
    requires ChildrenOk(s) && Enabled(s, Wake) && s.pc.WaitFirst?
    ensures Deciding(s, After(s, Wake)) && Spawned(After(s, Wake))
  {
  }

  /** From the return of the first wait on, what the call will raise is settled but
      for a cancellation of the call itself, and for the request when a disconnect
      has cancelled it.  In particular a request that succeeded first makes the call
      return normally, and its failure is the call's. */
  lemma {:induction false} OutcomeDecided(states: seq<State>, steps: seq<Step>, w: nat, i: nat)
    requires Run(states, steps) && w < i < |states| && steps[w] == Wake && states[w].pc.WaitFirst?
    ensures Deciding(states[w], states[i]) && Spawned(states[i])
  {
    RunKeepsChildren(states, steps, w);
    if w + 1 < i {
      OutcomeDecided(states, steps, w, i - 1);
      hide Deciding, Enabled, After, Verdict;
      StepKeepsDeciding(states[w], states[i - 1], steps[i - 1]);
    } else {
      hide Deciding, Enabled, After, Verdict;
      WakeDecides(states[w]);
    }
  }

  /** What the call raises, exactly. */
  lemma OutcomeIs(states: seq<State>, steps: seq<Step>, w: nat, i: nat)
    requires Run(states, steps) && w < i < |states| && steps[w] == Wake && states[w].pc.WaitFirst?
    requires states[i].pc.Over?
    ensures states[i].pc.outcome ==
      if states[i].arrived > 0 then Cancellation else Verdict(states[w], states[i].request.ended)
  {
    OutcomeDecided(states, steps, w, i);
    if states[i].arrived > 0 { CancellationIsReraised(states, steps, i); }
  }

  /** A request that succeeded, with the watcher stopped by the middleware or after a
      disconnect, and no cancellation of the call: the call returns normally. */
  lemma SuccessIsReturned(states: seq<State>, steps: seq<Step>, i: nat)
    requires Run(states, steps) && i < |states| && states[i].pc.Over? && Spawned(states[i])
    requires states[i].arrived == 0 && states[i].request.ended == Some(Success)
    requires states[i].watcher.ended == Some(Success) || states[i].watcher.cancels == 1
    ensures states[i].pc.outcome == Success
  {
    var w := FirstWake(states, steps, i);
    OutcomeDecided(states, steps, w, i);
    RunKeepsChildren(states, steps, w);
    assert Enabled(states[w], Wake);
    if states[w].request.ended.None? { WatcherKept(states, steps, w, i); }
  }

  /** A call with children has waited for them at first, and left that wait by a wake
      or a cancellation. */
  lemma LeavesFirstWait(s: State, step: Step)
    requires ChildrenOk(s) && Enabled(s, step) && Spawned(After(s, step)) && After(s, step).arrived == 0
    ensures s.arrived == 0 && (Spawned(s) || After(s, step).pc.WaitFirst?)
    ensures s.pc.WaitFirst? ==> After(s, step).pc.WaitFirst? || step == Wake
    ensures Spawned(s) && After(s, step).pc.WaitFirst? ==> s.pc.WaitFirst?
  {
  }

  /** An uncancelled call that had children got past its first wait. */
  lemma {:induction false} FirstWake(states: seq<State>, steps: seq<Step>, i: nat) returns (w: nat)
    requires Run(states, steps) && i < |states| && Spawned(states[i]) && states[i].arrived == 0
    requires !states[i].pc.WaitFirst?
    ensures w < i && steps[w] == Wake && states[w].pc.WaitFirst?
  {
    assert i > 0;
    RunKeepsChildren(states, steps, i - 1);
    hide ChildrenOk, Enabled, After, Spawned;
    LeavesFirstWait(states[i - 1], steps[i - 1]);
    if states[i - 1].pc.WaitFirst? { w := i - 1; } else { w := FirstWake(states, steps, i - 1); }
  }

  /** A task that has ended stays as it ended. */
  lemma {:induction false} WatcherKept(states: seq<State>, steps: seq<Step>, w: nat, i: nat)
    requires Run(states, steps) && w <= i < |states| && states[w].watcher.ended.Some?
    ensures states[i].watcher == states[w].watcher
  {
    if w < i { WatcherKept(states, steps, w, i - 1); }
  }

  lemma ChildlessStep(s: State, step: Step)
    requires ChildrenOk(s) && DeliveredOk(s) && Enabled(s, step) && !Spawned(After(s, step))
    ensures !s.pc.Over? && !Spawned(s)
    ensures s.consumed == [] && After(s, step).consumed != [] ==>
      var m := After(s, step).consumed[0];
      if m.Disconnect? then After(s, step).pc == Over(Success) && After(s, step).received == []
      else After(s, step).pc.Inline?
    ensures s.consumed != [] ==> After(s, step).consumed != [] && After(s, step).consumed[0] == s.consumed[0]
    ensures After(s, step).pc.Over? ==>
      var how := After(s, step).pc.outcome;
      if s.consumed != [] then step == InlineEnds(how)
      else step == FirstRaises(how) || (step == Cancelled && how == Cancellation)
           || (step == First(Disconnect) && how == Success)
  {
  }

  /** Without children: a disconnect before anything else ends the call normally with
      the application never started; a request with a body ends as the application
      does; and before the first message the call ends as that wait does. */
  lemma {:induction false} ChildlessOutcome(states: seq<State>, steps: seq<Step>, i: nat)
    requires Run(states, steps) && 0 < i < |states| && !Spawned(states[i])
    ensures states[i].consumed != [] && states[i].consumed[0].Disconnect? ==>
      states[i].pc == Over(Success) && states[i].received == []
    ensures states[i].pc.Over? ==>
      var how := states[i].pc.outcome;
      if states[i].consumed == [] then
        steps[i - 1] == FirstRaises(how) || (steps[i - 1] == Cancelled && how == Cancellation)
      else if states[i].consumed[0].Request? then steps[i - 1] == InlineEnds(how) else how == Success
  {
    RunKeepsChildren(states, steps, i - 1);
    FirstMessageOnce(states, steps, i - 1);
    hide ChildrenOk, DeliveredOk, Enabled, Spawned, Reads;
    ChildlessStep(states[i - 1], steps[i - 1]);
    if i > 1 { ChildlessOutcome(states, steps, i - 1); }
  }

  /** No schedule strands the call: whatever it waits for is a child that is
      running freely or has been cancelled, and once that child ends it moves on. */
  lemma NeverStranded(states: seq<State>, steps: seq<Step>, i: nat)
    requires Run(states, steps) && i < |states|
    ensures var s := states[i];
      s.pc.Over? || s.pc.AwaitFirst? || s.pc.Inline? || Enabled(s, Wake) || Enabled(s, Drained)
      || s.request.ended.None? || s.watcher.ended.None?
    ensures var s := states[i];
      s.pc.Drain? ==>
        && (s.request.ended.Some? || s.request.cancels == 1)
        && (s.watcher.ended.Some? || s.watcher.cancels == 1)
  {
    RunKeepsChildren(states, steps, i);
  }

  /** These steps lead from one state to the other. */
  ghost predicate Leads(s: State, way: seq<Step>, t: State)
    decreases |way|
  {
    if way == [] then s == t else Enabled(s, way[0]) && Leads(After(s, way[0]), way[1..], t)
  }

  lemma LeadsOn(s: State, step: Step, way: seq<Step>, t: State)
    requires Enabled(s, step)
    ensures Leads(After(s, step), way, t) ==> Leads(s, [step] + way, t)
    ensures Leads(t, [], t)
  {
    assert ([step] + way)[1..] == way;
  }

  /** The disconnect and the return of the first wait. */
  lemma Disconnected(s: State) returns (t: State)
    requires ChildrenOk(s) && s.pc.WaitFirst? && s.request.ended.None? && s.watcher.ended.None?
    ensures Enabled(s, Watch(Disconnect)) && Enabled(After(s, Watch(Disconnect)), Wake)
    ensures t == After(After(s, Watch(Disconnect)), Wake)
    ensures t.pc.WaitRequest? && t.request == STARTED.(cancels := 1) && t.watcher == STARTED.(ended := Some(Success))
    ensures t.inFlight.Success? && !t.outerCancelled
  {
    t := After(After(s, Watch(Disconnect)), Wake);
  }

  lemma Undone(s: State, how: Ending) returns (t: State)
    requires s.pc.WaitRequest? && s.request == STARTED.(cancels := 1) && s.watcher == STARTED.(ended := Some(Success))
    requires s.inFlight.Success? && !s.outerCancelled
    ensures Enabled(s, RequestEnds(how)) && Enabled(After(s, RequestEnds(how)), Wake)
    ensures Enabled(After(After(s, RequestEnds(how)), Wake), Drained)
    ensures t == After(After(After(s, RequestEnds(how)), Wake), Drained)
    ensures t.request.cancels == 1 && t.watcher.cancels == 0
    ensures t.pc == Over(if how == Failure then Failure else Success)
  {
    t := After(After(After(s, RequestEnds(how)), Wake), Drained);
  }

  /** While the call waits for its two children it listens: a disconnect stops the
      request, once, and whatever that then comes to, the call ends with the request's
      failure or with nothing to raise. */
  lemma DisconnectIsHeard(states: seq<State>, steps: seq<Step>, i: nat, how: Ending) returns (t: State)
    requires Run(states, steps) && i < |states| && states[i].pc.WaitFirst?
    requires states[i].request.ended.None? && states[i].watcher.ended.None?
    ensures Leads(states[i], [Watch(Disconnect), Wake, RequestEnds(how), Wake, Drained], t)
    ensures t.request.cancels == 1 && t.watcher.cancels == 0
    ensures t.pc == Over(if how == Failure then Failure else Success)
  {
    RunKeepsChildren(states, steps, i);
    hide *;
    var s2 := Disconnected(states[i]);
    t := Undone(s2, how);
    var s1, s3 := After(states[i], Watch(Disconnect)), After(s2, RequestEnds(how));
    var s4 := After(s3, Wake);
    LeadsOn(states[i], Watch(Disconnect), [Wake, RequestEnds(how), Wake, Drained], t);
    LeadsOn(s1, Wake, [RequestEnds(how), Wake, Drained], t);
    LeadsOn(s2, RequestEnds(how), [Wake, Drained], t);
    LeadsOn(s3, Wake, [Drained], t);
    LeadsOn(s4, Drained, [], t);
  }

  /** A cancellation of the call is heard at the first wait as well: it stops both
      children, and is raised when they have ended. */
  lemma CancellationIsHeard(states: seq<State>, steps: seq<Step>, i: nat, how: Ending) returns (t: State)
    requires Run(states, steps) && i < |states| && states[i].pc.WaitFirst?
    requires states[i].request.ended.None? && states[i].watcher.ended.None?
    ensures Leads(states[i], [Cancelled, RequestEnds(how), WatcherRaises(Cancellation), Drained], t)
    ensures t.request.cancels == 1 && t.watcher.cancels == 1 && t.pc == Over(Cancellation)
  {
    RunKeepsChildren(states, steps, i);
    hide Run;
    var s1 := After(states[i], Cancelled);
    var s2 := After(s1, RequestEnds(how));
    var s3 := After(s2, WatcherRaises(Cancellation));
    t := After(s3, Drained);
    hide ChildrenOk, Enabled, After;
    LeadsOn(states[i], Cancelled, [RequestEnds(how), WatcherRaises(Cancellation), Drained], t);
    LeadsOn(s1, RequestEnds(how), [WatcherRaises(Cancellation), Drained], t);
    LeadsOn(s2, WatcherRaises(Cancellation), [Drained], t);
    LeadsOn(s3, Drained, [], t);
  }

  // ── The messages ─────────────────────────────────────────────────

  /** What the application has been given, against what was read. */
  ghost predicate DeliveredOk(s: State) {
    && (s.pc.AwaitFirst? ==> s.consumed == [])
    && (s.replayed <==> s.received != [])
    && (s.consumed != [] ==> s.first == s.consumed[0])
    && (s.consumed == [] ==> s.received == [])
    && (s.disconnected ==> Disconnect in s.consumed) && (Started(s) && Disconnect in s.consumed ==> s.disconnected)
    && (s.received != [] && s.consumed != [] ==>
          if s.consumed[0].Request? && s.consumed[0].body
          then s.received == s.consumed
          else s.received[0] == s.consumed[0]
               && (forall k | 1 <= k < |s.received| :: s.received[k] == Disconnect)
               && (|s.received| > 1 ==> Disconnect in s.consumed))
    && (s.pc.Inline? ==> s.consumed != [] && s.consumed[0].Request? && s.consumed[0].body
                         && (s.received == [] ==> |s.consumed| == 1))
    && (Started(s) ==> Spawned(s))
  }

  predicate Reads(step: Step) {
    step.First? || step.InlineReceive? || step.Relay? || step.Watch?
  }

  lemma ReadKeepsDelivered(s: State, step: Step)
    requires DeliveredOk(s) && Enabled(s, step) && Reads(step)
    ensures DeliveredOk(After(s, step))
  {
    var s' := After(s, step);
    if step.Watch? {
      assert s'.consumed[|s.consumed|] == step.m;
      assert forall m | m in s.consumed :: m in s'.consumed;
    }
  }

  /** The same messages, and no way back to an earlier stage. */
  predicate SameMessages(s: State, s': State) {
    && s'.consumed == s.consumed && s'.received == s.received && s'.disconnected == s.disconnected
    && s'.first == s.first && s'.replayed == s.replayed
    && (s'.pc.AwaitFirst? ==> s.pc.AwaitFirst?) && (s'.pc.Inline? ==> s.pc.Inline?) && (Started(s') ==> Started(s))
  }

  lemma OtherMovesNoMessage(s: State, step: Step)
    requires Enabled(s, step) && !Reads(step)
    ensures SameMessages(s, After(s, step))
  {
  }

  lemma SameMessagesDelivered(s: State, s': State)
    requires DeliveredOk(s) && SameMessages(s, s')
    ensures DeliveredOk(s')
  {
  }

  lemma StepKeepsDelivered(s: State, step: Step)
    requires DeliveredOk(s) && Enabled(s, step)
    ensures DeliveredOk(After(s, step))
  {
    if Reads(step) {
      ReadKeepsDelivered(s, step);
    } else {
      OtherMovesNoMessage(s, step);
      SameMessagesDelivered(s, After(s, step));
    }
  }

  /** Without a body the first message reaches the application first and once,
      and anything after it is a disconnect that was really received; with one,
      the application reads exactly the client's messages, in order. */
  lemma {:induction false} FirstMessageOnce(states: seq<State>, steps: seq<Step>, i: nat)
    requires Run(states, steps) && i < |states|
    ensures DeliveredOk(states[i])
  {
    if i > 0 {
      FirstMessageOnce(states, steps, i - 1);
      StepKeepsDelivered(states[i - 1], steps[i - 1]);
    }
  }

  /** The bodyless path, spelled out. */
  lemma BodylessDelivery(states: seq<State>, steps: seq<Step>, i: nat)
    requires Run(states, steps) && i < |states| && Spawned(states[i])
    ensures var s := states[i];
      && (s.received != [] ==> s.received[0] == s.consumed[0])
      && (forall k | 1 <= k < |s.received| :: s.received[k] == Disconnect && s.received[k] != s.consumed[0])
      && (Disconnect in s.received ==> Disconnect in s.consumed)
  {
    FirstMessageOnce(states, steps, i);
  }

  /** The application's first read is answered at once, and any later one as soon as
      a disconnect has been received, with that. */
  lemma ReadsAreAnswered(states: seq<State>, steps: seq<Step>, i: nat)
    requires Run(states, steps) && i < |states| && Started(states[i]) && states[i].request.ended.None?
    ensures var s := states[i];
      && s.consumed != []
      && (Enabled(s, Relay) <==> s.received == [] || Disconnect in s.consumed)
      && (Enabled(s, Relay) ==>
            After(s, Relay).received == s.received + [if s.received == [] then s.consumed[0] else Disconnect])
  {
    FirstMessageOnce(states, steps, i);
  }

  /** With a body every read is answered: the first with the first message, any later
      one with what the client sends next. */
  lemma BodyIsPassedOn(states: seq<State>, steps: seq<Step>, i: nat, m: Message)
    requires Run(states, steps) && i < |states| && states[i].pc.Inline?
    ensures Enabled(states[i], InlineReceive(m))
    ensures var s, s' := states[i], After(states[i], InlineReceive(m));
      && s.consumed != []
      && s'.received == s.received + [if s.received == [] then s.consumed[0] else m]
      && s'.consumed == s.consumed + (if s.received == [] then [] else [m])
  {
    FirstMessageOnce(states, steps, i);
  }
}
