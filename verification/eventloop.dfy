// The functor queue and wakeup protocol of net/eventloop.cpp: the loop thread
// and any number of other threads as interleaved steps. A push under the lock,
// a flag assignment, an eventfd read or write and a poll are one step each.
module EventLoops {
  import opened Sequences

  type Functor = nat
  type Thread = nat

  // An eventfd write that would pass this value fails and changes nothing.
  const EVENTFD_MAX: nat := 0xFFFF_FFFF_FFFF_FFFE

  // A channel that poll reported: the wakeup channel or somebody else's.
  datatype Ready = Wakeup | Other

  datatype Pc =
    | Outside                          // before loop(), or after it returned
    | AtCheck                          // about to test quit_
    | AtPoll
    | Dispatching(todo: seq<Ready>)
    | AtSwap                           // callingPendingFunctors_ is set
    | Running(rest: seq<Functor>)      // what is left of the snapshot

  datatype State = State(
    pending: seq<Functor>,             // pendingFunctors_
    counter: nat,                      // of the eventfd
    quit: bool,
    pc: Pc,
    waking: set<Thread>,               // other threads between a push or quit and the write
    loopWaking: bool,                  // the loop thread in the same position
    silent: bool,                      // pushed by the loop thread outside loop(), not swapped yet
    pushed: seq<Functor>,              // history: all pushes, all functors started
    ran: seq<Functor>)

  datatype Step =
    | Push(t: Thread, f: Functor)      // queueInLoop by another thread
    | Quit(t: Thread)
    | Wake(t: Thread)
    | LoopPush(f: Functor)             // queueInLoop by code the loop thread runs
    | LoopQuit
    | LoopWake
    | Start                            // loop()
    | Check
    | Poll(ready: seq<Ready>)
    | Handle
    | Enter
    | Swap
    | RunNext
    | Leave

  function Init(): State {
    State([], 0, false, Outside, {}, false, false, [], [])
  }

  // The loop thread is running code that may call the loop's interface.
  predicate InUserCode(s: State) {
    !s.loopWaking && (s.pc.Outside? || s.pc.Dispatching? || s.pc.Running?)
  }

  predicate Enabled(s: State, step: Step) {
    match step
    case Push(t, _) => t !in s.waking
    case Quit(t) => t !in s.waking
    case Wake(t) => t in s.waking
    case LoopPush(_) => InUserCode(s)
    case LoopQuit => InUserCode(s)
    case LoopWake => s.loopWaking
    case Start => s.pc.Outside?
    case Check => s.pc.AtCheck?
    case Poll(ready) => s.pc.AtPoll? && (Wakeup in ready ==> s.counter > 0)
    case Handle => s.pc.Dispatching? && s.pc.todo != []
    case Enter => s.pc.Dispatching? && s.pc.todo == []
    case Swap => s.pc.AtSwap?
    case RunNext => s.pc.Running? && s.pc.rest != [] && !s.loopWaking
    case Leave => s.pc.Running? && s.pc.rest == [] && !s.loopWaking
  }

  function Written(counter: nat): nat {
    if counter < EVENTFD_MAX then counter + 1 else counter
  }

  // callingPendingFunctors_ decides whether the loop thread wakes itself.
  predicate CallingPendingFunctors(s: State) {
    s.pc.AtSwap? || s.pc.Running?
  }

  function Next(s: State, step: Step): State
    requires Enabled(s, step)
  {
    match step
    case Push(t, f) => s.(pending := s.pending + [f], pushed := s.pushed + [f], waking := s.waking + {t})
    case Quit(t) => s.(quit := true, waking := s.waking + {t})
    case Wake(t) => s.(counter := Written(s.counter), waking := s.waking - {t})
    case LoopPush(f) =>
      s.(pending := s.pending + [f], pushed := s.pushed + [f],
         loopWaking := CallingPendingFunctors(s),
         silent := s.silent || s.pc.Outside?)
    case LoopQuit => s.(quit := true)
    case LoopWake => s.(counter := Written(s.counter), loopWaking := false)
    case Start => s.(quit := false, pc := AtCheck)
    case Check => s.(pc := if s.quit then Outside else AtPoll)
    case Poll(ready) => s.(pc := Dispatching(ready))
    case Handle =>
      s.(counter := if s.pc.todo[0].Wakeup? then 0 else s.counter, pc := Dispatching(s.pc.todo[1..]))
    case Enter => s.(pc := AtSwap)
    case Swap => s.(pc := Running(s.pending), pending := [], silent := false)
    case RunNext => s.(ran := s.ran + [s.pc.rest[0]], pc := Running(s.pc.rest[1..]))
    case Leave => s.(pc := AtCheck)
  }

  predicate IsRun(s: State, steps: seq<Step>)
    decreases steps
  {
    steps == [] || (Enabled(s, steps[0]) && IsRun(Next(s, steps[0]), steps[1..]))
  }

  function Exec(s: State, steps: seq<Step>): State
    requires IsRun(s, steps)
    decreases steps
  {
    if steps == [] then s else Exec(Next(s, steps[0]), steps[1..])
  }

  // -------------------------------------------------------- no lost wakeup

  // The loop will not block in poll, now or as soon as a thread takes its next
  // step.
  predicate Signalled(s: State) {
    s.counter > 0 || s.waking != {} || s.loopWaking
  }

  predicate WorkToDo(s: State) {
    s.pending != [] || s.quit
  }

  predicate NoLostWakeup(s: State) {
    s.pc.AtPoll? && WorkToDo(s) ==> Signalled(s)
  }

  // A push or quit is signalled, or the loop will see it before it polls, or it
  // was made by the loop's thread outside loop().
  predicate Covered(s: State) {
    && (s.pending != [] ==> Signalled(s) || s.silent || s.pc.Dispatching? || s.pc.AtSwap?)
    && (s.pc.AtPoll? && s.quit ==> Signalled(s))
    && (s.loopWaking ==> s.pc.Running?)
    && (s.silent ==> s.pending != [])
  }

  function Snapshot(s: State): seq<Functor> {
    if s.pc.Running? then s.pc.rest else []
  }

  ghost predicate InPushOrder(s: State) {
    s.pushed == s.ran + Snapshot(s) + s.pending
  }

  ghost predicate Inv(s: State) {
    Covered(s) && InPushOrder(s)
  }

  lemma StepKeepsCovered(s: State, step: Step)
    requires Covered(s) && Enabled(s, step)
    ensures Covered(Next(s, step))
  {
  }

  lemma AppendLast(a: seq<Functor>, b: seq<Functor>, c: seq<Functor>, f: Functor)
    ensures (a + b + c) + [f] == a + b + (c + [f])
    ensures b != [] ==> a + b + c == (a + [b[0]]) + b[1..] + c
    ensures a + [] + c == a + c + []
  {
  }

  lemma StepKeepsOrder(s: State, step: Step)
    requires InPushOrder(s) && Enabled(s, step)
    ensures InPushOrder(Next(s, step))
  {
    match step
    case Push(_, f) => AppendLast(s.ran, Snapshot(s), s.pending, f);
    case LoopPush(f) => AppendLast(s.ran, Snapshot(s), s.pending, f);
    case Swap => AppendLast(s.ran, [], s.pending, 0);
    case RunNext => AppendLast(s.ran, s.pc.rest, s.pending, 0);
    case _ =>
  }

  lemma StepKeepsInv(s: State, step: Step)
    requires Inv(s) && Enabled(s, step)
    ensures Inv(Next(s, step))
  {
    hide Covered, InPushOrder, Next, Enabled;
    StepKeepsCovered(s, step);
    StepKeepsOrder(s, step);
  }

  lemma {:induction false} RunKeepsInv(s: State, steps: seq<Step>)
    requires Inv(s) && IsRun(s, steps)
    ensures Inv(Exec(s, steps))
    decreases steps
  {
    if steps != [] {
      StepKeepsInv(s, steps[0]);
      RunKeepsInv(Next(s, steps[0]), steps[1..]);
    }
  }

  // In every interleaving, a loop at poll with work to do is signalled, unless
  // the only unswapped pushes since loop() was entered include one its own
  // thread made outside loop(); a pending quit is always signalled.
  lemma WakeupNeverLost(steps: seq<Step>)
    requires IsRun(Init(), steps)
    ensures var s := Exec(Init(), steps);
      && (!s.silent ==> NoLostWakeup(s))
      && (s.pc.AtPoll? && s.quit ==> Signalled(s))
  {
    RunKeepsInv(Init(), steps);
  }

  predicate LoopThreadPushesOutside(s: State, steps: seq<Step>)
    requires IsRun(s, steps)
    decreases steps
  {
    steps != [] &&
    ((steps[0].LoopPush? && s.pc.Outside?) || LoopThreadPushesOutside(Next(s, steps[0]), steps[1..]))
  }

  lemma {:induction false} SilentNeedsOutsidePush(s: State, steps: seq<Step>)
    requires IsRun(s, steps) && !LoopThreadPushesOutside(s, steps) && !s.silent
    ensures !Exec(s, steps).silent
    decreases steps
  {
    if steps != [] {
      SilentNeedsOutsidePush(Next(s, steps[0]), steps[1..]);
    }
  }

  // A program whose loop thread queues nothing outside loop() loses no wakeup.
  lemma DisciplinedRunsAreSafe(steps: seq<Step>)
    requires IsRun(Init(), steps) && !LoopThreadPushesOutside(Init(), steps)
    ensures NoLostWakeup(Exec(Init(), steps))
  {
    WakeupNeverLost(steps);
    SilentNeedsOutsidePush(Init(), steps);
  }

  // Without the discipline: the loop thread queues a functor, enters loop()
  // and blocks in poll with the functor pending.
  lemma EarlyPushBlocks(f: Functor)
    ensures var steps := [LoopPush(f), Start, Check];
      && IsRun(Init(), steps)
      && LoopThreadPushesOutside(Init(), steps)
      && var s := Exec(Init(), steps);
         s.pc.AtPoll? && s.pending == [f] && !Signalled(s) && !NoLostWakeup(s)
  {
    var s1 := Next(Init(), LoopPush(f));
    var s2 := Next(s1, Start);
    var s3 := Next(s2, Check);
    assert IsRun(s3, []) && Exec(s3, []) == s3;
    assert [Check][1..] == [];
    assert IsRun(s2, [Check]) && Exec(s2, [Check]) == s3;
    assert [Start, Check][1..] == [Check];
    assert IsRun(s1, [Start, Check]) && Exec(s1, [Start, Check]) == s3;
    assert [LoopPush(f), Start, Check][1..] == [Start, Check];
  }

  predicate NoPoll(steps: seq<Step>) {
    forall i :: 0 <= i < |steps| ==> !steps[i].Poll?
  }

  predicate BeforePoll(s: State) {
    s.pc.Outside? || s.pc.AtCheck? || s.pc.AtPoll?
  }

  // Until the loop polls, nothing takes a stored or coming wakeup away.
  lemma SignalStays(s: State, step: Step)
    requires BeforePoll(s) && Enabled(s, step) && !step.Poll? && (s.counter > 0 || s.waking != {})
    ensures var t := Next(s, step); BeforePoll(t) && (t.counter > 0 || t.waking != {})
  {
    if step.Push? || step.Quit? {
      assert step.t in Next(s, step).waking;
    }
  }

  lemma {:induction false} SignalReachesPoll(s: State, steps: seq<Step>)
    requires BeforePoll(s) && IsRun(s, steps) && NoPoll(steps) && (s.counter > 0 || s.waking != {})
    ensures NoLostWakeup(Exec(s, steps))
    decreases steps
  {
    if steps != [] {
      hide Next, Enabled, BeforePoll;
      assert !steps[0].Poll?;
      SignalStays(s, steps[0]);
      assert forall i :: 0 <= i < |steps| - 1 ==> steps[1..][i] == steps[i + 1];
      SignalReachesPoll(Next(s, steps[0]), steps[1..]);
    }
  }

  // Exactly when such a push is safe: in every interleaving the loop comes to
  // its next poll signalled, if and only if a wakeup is stored or on its way at
  // the push.
  lemma EarlyPushIff(s: State, f: Functor)
    requires Inv(s) && s.pc.Outside?
    ensures Enabled(s, LoopPush(f))
    ensures (s.counter > 0 || s.waking != {}) <==>
      forall steps :: IsRun(Next(s, LoopPush(f)), steps) && NoPoll(steps) ==>
        NoLostWakeup(Exec(Next(s, LoopPush(f)), steps))
  {
    var t := Next(s, LoopPush(f));
    assert t.counter == s.counter && t.waking == s.waking && t.pc.Outside? && t.pending != [] && !t.loopWaking;
    if s.counter > 0 || s.waking != {} {
      forall steps | IsRun(t, steps) && NoPoll(steps)
        ensures NoLostWakeup(Exec(t, steps))
      {
        hide Next, IsRun, Exec;
        SignalReachesPoll(t, steps);
      }
    } else {
      var t1 := Next(t, Start);
      var t2 := Next(t1, Check);
      assert t2.pc.AtPoll? && t2.pending != [] && !Signalled(t2);
      assert IsRun(t2, []) && Exec(t2, []) == t2;
      hide Next, IsRun, Exec;
      Prepend(t1, Check, [], [Check]);
      Prepend(t, Start, [Check], [Start, Check]);
      assert NoPoll([Start, Check]) && !NoLostWakeup(Exec(t, [Start, Check]));
    }
  }

  // A quit() that comes before loop() is overwritten, whoever makes it and
  // whether or not its wakeup was written.
  lemma EarlyQuitIsOverwritten(s: State)
    requires Enabled(s, Start)
    ensures !Next(s, Start).quit
    ensures Enabled(Next(s, Start), Check) && Next(Next(s, Start), Check).pc.AtPoll?
  {
  }

  // ------------------------------------------------------ order and progress

  // The functors that the calls of a run queue, in order.
  function Pushes(steps: seq<Step>): seq<Functor> {
    if steps == [] then []
    else
      (match steps[0]
       case Push(_, f) => [f]
       case LoopPush(f) => [f]
       case _ => [])
      + Pushes(steps[1..])
  }

  lemma {:induction false} PushedIsPushes(s: State, steps: seq<Step>)
    requires IsRun(s, steps)
    ensures Exec(s, steps).pushed == s.pushed + Pushes(steps)
    decreases steps
  {
    if steps != [] {
      PushedIsPushes(Next(s, steps[0]), steps[1..]);
    }
  }

  // Functors started, then the rest of the snapshot, then the queue are the
  // pushes in call order: each runs at most once and none is skipped.
  lemma FunctorsAreFifo(steps: seq<Step>)
    requires IsRun(Init(), steps)
    ensures var s := Exec(Init(), steps);
      Pushes(steps) == s.ran + Snapshot(s) + s.pending
  {
    RunKeepsInv(Init(), steps);
    PushedIsPushes(Init(), steps);
    hide IsRun, Exec, Pushes;
    assert [] + Pushes(steps) == Pushes(steps);
  }

  function Todo(s: State): seq<Ready> {
    if s.pc.Dispatching? then s.pc.todo else []
  }

  // What the polls of a run report, and what its handlers are called for.
  function Reported(steps: seq<Step>): seq<Ready> {
    if steps == [] then []
    else (if steps[0].Poll? then steps[0].ready else []) + Reported(steps[1..])
  }

  function Handled(s: State, steps: seq<Step>): seq<Ready>
    requires IsRun(s, steps)
    decreases steps
  {
    if steps == [] then []
    else (if steps[0].Handle? then [s.pc.todo[0]] else []) + Handled(Next(s, steps[0]), steps[1..])
  }

  lemma StepHandles(s: State, step: Step)
    requires Enabled(s, step)
    ensures (if step.Handle? then [s.pc.todo[0]] else []) + Todo(Next(s, step))
         == Todo(s) + if step.Poll? then step.ready else []
  {
  }

  // Every channel a poll reports is handled once, in that order, before the
  // functors and the next poll.
  lemma {:induction false} ReportedAreHandled(s: State, steps: seq<Step>)
    requires IsRun(s, steps)
    ensures Handled(s, steps) + Todo(Exec(s, steps)) == Todo(s) + Reported(steps)
    decreases steps
  {
    if steps != [] {
      StepHandles(s, steps[0]);
      var n, rest := Next(s, steps[0]), steps[1..];
      ReportedAreHandled(n, rest);
      var now := if steps[0].Handle? then [s.pc.todo[0]] else [];
      hide Next, Enabled, Todo;
      Regroup(now, Todo(n), Todo(s), if steps[0].Poll? then steps[0].ready else [],
              Handled(n, rest), Todo(Exec(n, rest)), Reported(rest));
    }
  }

  // Only the handler of the wakeup channel takes wakeups away, all at once, and
  // only a wakeup adds one.
  lemma OnlyHandlingClears(s: State, step: Step)
    requires Enabled(s, step) && s.counter <= EVENTFD_MAX
    ensures var t := Next(s, step);
      && t.counter <= EVENTFD_MAX
      && (step.Handle? && s.pc.todo[0].Wakeup? ==> t.counter == 0)
      && (step.Wake? || step.LoopWake? ==> t.counter > 0 && s.counter <= t.counter <= s.counter + 1)
      && (!step.Handle? && !step.Wake? && !step.LoopWake? ==> t.counter == s.counter)
      && (step.Handle? && s.pc.todo[0].Other? ==> t.counter == s.counter)
  {
  }

  function RunNexts(steps: seq<Step>): nat {
    if steps == [] then 0 else (if steps[0].RunNext? then 1 else 0) + RunNexts(steps[1..])
  }

  predicate StaysRunning(s: State, steps: seq<Step>)
    requires IsRun(s, steps)
    decreases steps
  {
    s.pc.Running? && (steps == [] || StaysRunning(Next(s, steps[0]), steps[1..]))
  }

  // One doPendingFunctors starts at most its snapshot, however often functors
  // and other threads queue more meanwhile; what they queue waits.
  lemma {:induction false} SnapshotIsBounded(s: State, steps: seq<Step>)
    requires IsRun(s, steps) && StaysRunning(s, steps)
    ensures var t := Exec(s, steps);
      && t.pc.Running?
      && RunNexts(steps) + |t.pc.rest| == |s.pc.rest|
      && t.ran + t.pc.rest == s.ran + s.pc.rest
      && s.pending <= t.pending
    decreases steps
  {
    if steps != [] {
      var n := Next(s, steps[0]);
      SnapshotIsBounded(n, steps[1..]);
      if steps[0].RunNext? {
        assert s.pc.rest == [s.pc.rest[0]] + s.pc.rest[1..];
      }
    }
  }

  // The steps by which a signalled loop, left alone, runs everything pending.
  function RunAll(n: nat): seq<Step> {
    if n == 0 then [] else [RunNext] + RunAll(n - 1)
  }

  lemma RunNextRuns(s: State)
    requires s.pc.Running? && s.pc.rest != [] && !s.loopWaking
    ensures Enabled(s, RunNext)
    ensures Next(s, RunNext) == s.(ran := s.ran + [s.pc.rest[0]], pc := Running(s.pc.rest[1..]))
  {
  }

  lemma {:induction false} RunAllRuns(s: State)
    requires s.pc.Running? && !s.loopWaking
    ensures IsRun(s, RunAll(|s.pc.rest|))
    ensures Exec(s, RunAll(|s.pc.rest|)) == s.(ran := s.ran + s.pc.rest, pc := Running([]))
    decreases |s.pc.rest|
  {
    var rest := s.pc.rest;
    if rest == [] {
      assert s.ran + rest == s.ran;
    } else {
      hide IsRun, Exec, Next, Enabled;
      RunNextRuns(s);
      var n := Next(s, RunNext);
      RunAllRuns(n);
      Prepend(s, RunNext, RunAll(|rest| - 1), RunAll(|rest|));
      assert (s.ran + [rest[0]]) + rest[1..] == s.ran + rest;
    }
  }

  function DrainSteps(n: nat): seq<Step> {
    [Poll([Wakeup]), Handle, Enter, Swap] + RunAll(n)
  }

  lemma DrainRuns(s: State)
    requires s.pc.AtPoll? && s.counter > 0 && !s.loopWaking
    ensures IsRun(s, DrainSteps(|s.pending|))
    ensures Exec(s, DrainSteps(|s.pending|))
         == s.(counter := 0, pc := Running([]), pending := [], silent := false, ran := s.ran + s.pending)
  {
    var tail := RunAll(|s.pending|);
    var s1 := Next(s, Poll([Wakeup]));
    var s2 := Next(s1, Handle);
    var s3 := Next(s2, Enter);
    var s4 := Next(s3, Swap);
    assert s4 == s.(counter := 0, pc := Running(s.pending), pending := [], silent := false);
    var swap := [Swap] + tail;
    var enter := [Enter] + swap;
    var handle := [Handle] + enter;
    assert DrainSteps(|s.pending|) == [Poll([Wakeup])] + handle;
    hide IsRun, Exec, RunAll, Next, Enabled, DrainSteps;
    RunAllRuns(s4);
    Prepend(s3, Swap, tail, swap);
    Prepend(s2, Enter, swap, enter);
    Prepend(s1, Handle, enter, handle);
    Prepend(s, Poll([Wakeup]), handle, DrainSteps(|s.pending|));
  }

  // Once the wakeups under way are written, a loop at poll with functors
  // pending does not block, and its own steps run every one of them.
  lemma SignalledLoopDrains(steps: seq<Step>)
    requires IsRun(Init(), steps)
    requires var s := Exec(Init(), steps); s.pc.AtPoll? && s.pending != [] && s.waking == {} && !s.silent
    ensures var s := Exec(Init(), steps);
      && s.counter > 0
      && IsRun(s, DrainSteps(|s.pending|))
      && Exec(s, DrainSteps(|s.pending|)).ran == Pushes(steps)
  {
    var s := Exec(Init(), steps);
    RunKeepsInv(Init(), steps);
    DrainRuns(s);
    FunctorsAreFifo(steps);
    hide IsRun, Exec, Pushes;
    AppendLast(s.ran, [], s.pending, 0);
  }

  // ------------------------------------------------------------- quitting

  // Steps the loop's thread makes by itself: no other thread, no user calls.
  predicate OwnSteps(steps: seq<Step>) {
    forall i :: 0 <= i < |steps| ==>
      !steps[i].Push? && !steps[i].Quit? && !steps[i].Wake? && !steps[i].LoopPush? && !steps[i].LoopQuit? && !steps[i].Start?
  }

  predicate NoStart(steps: seq<Step>) {
    forall i :: 0 <= i < |steps| ==> !steps[i].Start?
  }

  // Only loop() itself discards a quit.
  lemma {:induction false} QuitIsKept(s: State, steps: seq<Step>)
    requires s.quit && IsRun(s, steps) && NoStart(steps)
    ensures Exec(s, steps).quit
    decreases steps
  {
    if steps != [] {
      hide IsRun, Exec;
      Unfold(s, steps);
      assert !steps[0].Start?;
      assert forall i :: 0 <= i < |steps| - 1 ==> steps[1..][i] == steps[i + 1];
      QuitIsKept(Next(s, steps[0]), steps[1..]);
    }
  }

  lemma Unfold(s: State, steps: seq<Step>)
    requires IsRun(s, steps) && steps != []
    ensures Enabled(s, steps[0]) && IsRun(Next(s, steps[0]), steps[1..])
    ensures Exec(s, steps) == Exec(Next(s, steps[0]), steps[1..])
  {
    hide Next, Enabled;
  }

  ghost predicate Returns(s: State, steps: seq<Step>) {
    IsRun(s, steps) && OwnSteps(steps) && Exec(s, steps).pc.Outside?
  }

  lemma PrependReturns(s: State, step: Step, steps: seq<Step>)
    requires Enabled(s, step) && OwnSteps([step]) && Returns(Next(s, step), steps)
    ensures Returns(s, [step] + steps)
  {
    hide Next, Enabled, IsRun, Exec;
    assert OwnSteps([step] + steps) by {
      assert !([step][0].Push? || [step][0].Quit?);
    }
    Prepend(s, step, steps, [step] + steps);
  }

  // How far the loop is from its next test of quit_.
  function Distance(s: State): nat {
    match s.pc
    case Outside => 0
    case AtCheck => 1
    case Running(rest) => 2 + 2 * |rest| + if s.loopWaking then 1 else 0
    case AtSwap => 3 + 2 * |s.pending|
    case Dispatching(todo) => 4 + 2 * |s.pending| + |todo|
    case AtPoll => 6 + 2 * |s.pending|
  }

  function OwnStep(s: State): Step {
    match s.pc
    case AtCheck => Check
    case AtPoll => Poll([Wakeup])
    case Dispatching(todo) => if todo == [] then Enter else Handle
    case AtSwap => Swap
    case Running(rest) => if s.loopWaking then LoopWake else if rest == [] then Leave else RunNext
    case Outside => Check
  }

  // The loop's next own step brings it closer.
  lemma OwnStepAdvances(s: State)
    requires Inv(s) && s.quit && !s.pc.Outside? && (s.pc.AtPoll? ==> s.counter > 0)
    ensures Enabled(s, OwnStep(s)) && OwnSteps([OwnStep(s)])
    ensures var t := Next(s, OwnStep(s)); t.quit && Distance(t) < Distance(s) && !t.pc.AtPoll?
  {
    hide InPushOrder;
  }

  // A quit that loop() has not discarded makes loop() return, wherever the loop
  // is, by its own steps; at poll its wakeup, or another one, must be written.
  lemma QuitReturns(s: State) returns (steps: seq<Step>)
    requires Inv(s) && s.quit && (s.pc.AtPoll? ==> s.waking == {})
    ensures Returns(s, steps)
    decreases Distance(s)
  {
    if s.pc.Outside? {
      steps := [];
    } else {
      assert s.pc.AtPoll? ==> s.counter > 0;
      OwnStepAdvances(s);
      StepKeepsInv(s, OwnStep(s));
      var t := Next(s, OwnStep(s));
      hide Next, Enabled, Returns, Inv, OwnStep, Distance;
      steps := QuitReturns(t);
      PrependReturns(s, OwnStep(s), steps);
      steps := [OwnStep(s)] + steps;
    }
  }

  predicate IsQuit(step: Step) {
    step.Quit? || step.LoopQuit?
  }

  // A quit() of the run that no later loop() discards.
  predicate QuitStands(steps: seq<Step>) {
    steps != [] && ((IsQuit(steps[0]) && NoStart(steps[1..])) || QuitStands(steps[1..]))
  }

  // The flag says, in every run, whether such a call was made.
  lemma {:induction false} QuitIffCalled(s: State, steps: seq<Step>)
    requires IsRun(s, steps)
    ensures Exec(s, steps).quit <==> QuitStands(steps) || (s.quit && NoStart(steps))
    decreases steps
  {
    if steps != [] {
      var n, rest := Next(s, steps[0]), steps[1..];
      StepQuits(s, steps[0]);
      QuitIffCalled(n, rest);
      hide Next, Enabled, IsRun, Exec;
      NoStartFirst(steps);
    }
  }

  lemma StepQuits(s: State, step: Step)
    requires Enabled(s, step)
    ensures Next(s, step).quit <==> IsQuit(step) || (s.quit && !step.Start?)
  {
  }

  lemma NoStartFirst(steps: seq<Step>)
    requires steps != []
    ensures NoStart(steps) <==> !steps[0].Start? && NoStart(steps[1..])
  {
    assert forall i :: 0 < i < |steps| ==> steps[i] == steps[1..][i - 1];
    assert forall i :: 0 <= i < |steps[1..]| ==> steps[1..][i] == steps[i + 1];
  }

  // Which quits take hold: from the call on, whoever makes it, the flag stays
  // set in every run that does not enter loop() again, and wherever that run
  // leaves the loop its own steps then make loop() return; entering loop() is
  // what discards it.
  lemma QuitTakesHold(s: State, call: Step, steps: seq<Step>)
    requires Inv(s) && IsQuit(call) && Enabled(s, call) && IsRun(Next(s, call), steps) && NoStart(steps)
    requires var t := Exec(Next(s, call), steps); t.pc.AtPoll? ==> t.waking == {}
    ensures var t := Exec(Next(s, call), steps); t.quit && exists own :: Returns(t, own)
  {
    StepQuits(s, call);
    StepKeepsInv(s, call);
    var n := Next(s, call);
    QuitIsKept(n, steps);
    RunKeepsInv(n, steps);
    hide Next, Enabled, IsRun, Exec, Inv, Returns;
    var own := QuitReturns(Exec(n, steps));
  }

  lemma Prepend(s: State, step: Step, rest: seq<Step>, steps: seq<Step>)
    requires steps == [step] + rest
    requires Enabled(s, step) && IsRun(Next(s, step), rest)
    ensures IsRun(s, steps) && Exec(s, steps) == Exec(Next(s, step), rest)
  {
    hide Next, Enabled;
    assert steps[0] == step && steps[1..] == rest;
  }

  // ---------------------------------------- one doPendingFunctors, undisturbed

  // queueInLoop by a functor or handler of the loop's own thread, its wakeup
  // included.
  function QueueOwn(s: State, f: Functor): (t: State)
    requires InUserCode(s)
    ensures InUserCode(t) && t.pc == s.pc && t.ran == s.ran
    ensures t.pending == s.pending + [f] && t.pushed == s.pushed + [f]
  {
    var t := Next(s, LoopPush(f));
    if CallingPendingFunctors(s) then Next(t, LoopWake) else t
  }

  function QueueAll(s: State, fs: seq<Functor>): (t: State)
    requires InUserCode(s)
    ensures InUserCode(t) && t.pc == s.pc && t.ran == s.ran
    decreases fs
  {
    if fs == [] then s else QueueAll(QueueOwn(s, fs[0]), fs[1..])
  }

  function Head(script: seq<seq<Functor>>): seq<Functor> {
    if script == [] then [] else script[0]
  }

  function Tail(script: seq<seq<Functor>>): seq<seq<Functor>> {
    if script == [] then [] else script[1..]
  }

  function RunFirst(s: State, body: seq<Functor>): (t: State)
    requires s.pc.Running? && s.pc.rest != [] && !s.loopWaking
    ensures t.pc == Running(s.pc.rest[1..]) && !t.loopWaking
  {
    QueueAll(Next(s, RunNext), body)
  }

  // The rest of the snapshot runs; the script says what each functor queues.
  function RunRest(s: State, script: seq<seq<Functor>>): (t: State)
    requires s.pc.Running? && !s.loopWaking
    ensures t.pc == Running([]) && !t.loopWaking
    decreases |s.pc.rest|
  {
    if s.pc.rest == [] then s else RunRest(RunFirst(s, Head(script)), Tail(script))
  }

  function DidPending(s: State, script: seq<seq<Functor>>): (t: State)
    requires s.pc.Dispatching? && s.pc.todo == [] && !s.loopWaking
  {
    Next(RunRest(Next(Next(s, Enter), Swap), script), Leave)
  }

  // What the first n functors queue, in order.
  function Queued(script: seq<seq<Functor>>, n: nat): seq<Functor> {
    if n == 0 then [] else Head(script) + Queued(Tail(script), n - 1)
  }

  lemma {:induction false} QueueAllAppends(s: State, fs: seq<Functor>)
    requires InUserCode(s)
    ensures QueueAll(s, fs).pending == s.pending + fs
    decreases fs
  {
    if fs == [] {
      assert s.pending + fs == s.pending;
    } else {
      hide QueueOwn;
      QueueAllAppends(QueueOwn(s, fs[0]), fs[1..]);
      assert s.pending + fs == (s.pending + [fs[0]]) + fs[1..];
    }
  }

  lemma {:induction false} RunRestRuns(s: State, script: seq<seq<Functor>>)
    requires s.pc.Running? && !s.loopWaking
    ensures var t := RunRest(s, script);
      && t.ran == s.ran + s.pc.rest
      && t.pending == s.pending + Queued(script, |s.pc.rest|)
    decreases |s.pc.rest|
  {
    if s.pc.rest == [] {
      assert s.ran + s.pc.rest == s.ran && s.pending + [] == s.pending;
    } else {
      var n := Next(s, RunNext);
      var u := QueueAll(n, Head(script));
      QueueAllAppends(n, Head(script));
      RunRestRuns(u, Tail(script));
      assert (s.ran + [s.pc.rest[0]]) + s.pc.rest[1..] == s.ran + s.pc.rest;
      assert (s.pending + Head(script)) + Queued(Tail(script), |s.pc.rest| - 1)
          == s.pending + (Head(script) + Queued(Tail(script), |s.pc.rest| - 1));
    }
  }

  // doPendingFunctors runs exactly what was pending when it swapped, and leaves
  // pending exactly what those functors queued, in order.
  lemma DidPendingRuns(s: State, script: seq<seq<Functor>>)
    requires s.pc.Dispatching? && s.pc.todo == [] && !s.loopWaking
    ensures DidPending(s, script).ran == s.ran + s.pending
    ensures DidPending(s, script).pending == Queued(script, |s.pending|)
  {
    RunRestRuns(Next(Next(s, Enter), Swap), script);
  }

  // ------------------------------------------------------------- the class

  class EventLoop {
    var pendingFunctors: seq<Functor>
    var callingPendingFunctors: bool
    var quitRequested: bool
    var counter: nat
    ghost var pc: Pc
    ghost var waking: set<Thread>
    ghost var loopWaking: bool
    ghost var silent: bool
    ghost var pushed: seq<Functor>
    ghost var ran: seq<Functor>

    ghost function Value(): State
      reads this
    {
      State(pendingFunctors, counter, quitRequested, pc, waking, loopWaking, silent, pushed, ran)
    }

    ghost predicate Valid()
      reads this
    {
      callingPendingFunctors == CallingPendingFunctors(Value())
    }

    constructor ()
      ensures Valid() && Value() == Init()
    {
      pendingFunctors, callingPendingFunctors, quitRequested, counter := [], false, false, 0;
      pc, waking, loopWaking, silent, pushed, ran := Outside, {}, false, false, [], [];
    }

    method WriteEventFd()
      modifies this`counter
      ensures counter == Written(old(counter))
    {
      if counter < EVENTFD_MAX {
        counter := counter + 1;
      }
    }

    // queueInLoop and quit by another thread that nobody interrupts.
    method QueueFrom(t: Thread, f: Functor)
      requires Valid() && t !in waking
      modifies this`pendingFunctors, this`counter, this`pushed, this`waking
      ensures Valid() && Value() == Next(Next(old(Value()), Push(t, f)), Wake(t))
    {
      pendingFunctors := pendingFunctors + [f];
      pushed := pushed + [f];
      WriteEventFd();
      waking := waking + {t} - {t};
    }

    method QuitFrom(t: Thread)
      requires Valid() && t !in waking
      modifies this`quitRequested, this`counter, this`waking
      ensures Valid() && Value() == Next(Next(old(Value()), Quit(t)), Wake(t))
      ensures quitRequested && counter == Written(old(counter))
    {
      quitRequested := true;
      WriteEventFd();
      waking := waking + {t} - {t};
    }

    method QueueInLoop(f: Functor)
      requires Valid() && InUserCode(Value())
      modifies this`pendingFunctors, this`counter, this`pushed, this`silent
      ensures Valid() && Value() == QueueOwn(old(Value()), f)
    {
      pendingFunctors := pendingFunctors + [f];
      pushed := pushed + [f];
      silent := silent || pc.Outside?;
      if callingPendingFunctors {
        WriteEventFd();
      }
    }

    // A functor's body queues these.
    method RunBody(fs: seq<Functor>)
      requires Valid() && InUserCode(Value())
      modifies this`pendingFunctors, this`counter, this`pushed, this`silent
      ensures Valid() && Value() == QueueAll(old(Value()), fs)
      decreases fs
    {
      hide QueueOwn;
      if fs != [] {
        QueueInLoop(fs[0]);
        RunBody(fs[1..]);
      }
    }

    method HandleRead()
      requires Valid() && pc.Dispatching? && pc.todo != [] && pc.todo[0].Wakeup?
      modifies this`counter, this`pc
      ensures Valid() && Value() == Next(old(Value()), Handle)
    {
      counter := 0;
      pc := Dispatching(pc.todo[1..]);
    }

    // The next functor of the snapshot runs.
    method RunFunctor(f: Functor, body: seq<Functor>)
      requires Valid() && pc.Running? && pc.rest != [] && pc.rest[0] == f && !loopWaking
      modifies this`pendingFunctors, this`counter, this`pushed, this`silent, this`pc, this`ran
      ensures Valid() && Value() == RunFirst(old(Value()), body)
    {
      hide QueueAll;
      ran := ran + [f];
      pc := Running(pc.rest[1..]);
      RunBody(body);
    }

    method TakeSnapshot() returns (functors: seq<Functor>)
      requires Valid() && pc == Dispatching([])
      modifies this`callingPendingFunctors, this`pendingFunctors, this`pc, this`silent
      ensures Valid() && callingPendingFunctors && Value() == Next(Next(old(Value()), Enter), Swap)
      ensures functors == old(pendingFunctors)
    {
      callingPendingFunctors := true;
      functors := pendingFunctors;
      pendingFunctors := [];
      pc, silent := Running(functors), false;
    }

    method DropSnapshot()
      requires pc == Running([]) && !loopWaking
      modifies this`callingPendingFunctors, this`pc
      ensures Valid() && Value() == Next(old(Value()), Leave)
    {
      callingPendingFunctors := false;
      pc := AtCheck;
    }

    // The flag is set before the swap and cleared after the last functor.
    method DoPendingFunctors(script: seq<seq<Functor>>)
      requires Valid() && pc == Dispatching([]) && !loopWaking
      modifies this
      ensures Valid() && Value() == DidPending(old(Value()), script)
    {
      hide QueueAll, RunFirst, CallingPendingFunctors;
      var functors := TakeSnapshot();
      ghost var s := Value();
      hide Next, Enabled;
      var i, todo := 0, script;
      while i < |functors|
        invariant 0 <= i <= |functors| && Valid()
        invariant pc == Running(functors[i..]) && !loopWaking
        invariant RunRest(Value(), todo) == RunRest(s, script)
      {
        RunFunctor(functors[i], Head(todo));
        i, todo := i + 1, Tail(todo);
      }
      DropSnapshot();
    }
  }
}
