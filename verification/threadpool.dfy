// base/threadpool.cpp as a monitor: every critical section between two waits
// is one step. Notifies wake a single waiter, waits may end without a notify,
// and a thread that just arrives may get the lock before one that was woken.
module ThreadPools {
  import opened Options
  import opened Sequences

  type Task = nat
  type Thread = nat

  datatype Worker =
    | Testing        // at while (running_) in runInThread
    | Arriving       // about to lock in takeTask
    | Asleep         // in notEmpty_.wait
    | Woken          // notified or spuriously awake, not yet back in the monitor
    | Busy           // takeTask has returned
    | Exited

  datatype Producer =
    | Idle
    | Blocked(task: Task)    // in notFull_.wait
    | Roused(task: Task)

  // A worker whose task calls run() is a producer too, under the same number.
  datatype State = State(
    queue: seq<Task>,
    running: bool,
    maxSize: nat,                        // maxQueueSize_; 0 means unbounded
    workers: map<Thread, Worker>,
    producers: map<Thread, Producer>,
    submitted: seq<Task>,                // history: tasks pushed, tasks taken,
    taken: seq<Task>,
    late: map<Thread, nat>)              // tasks each worker took after stop

  datatype Step =
    | Test(w: Thread)
    | Take(w: Thread, wake: Option<Thread>)
    | Finish(w: Thread)
    | SpuriousWorker(w: Thread)
    | Run(p: Thread, task: Task, wake: Option<Thread>)
    | Retry(p: Thread, wake: Option<Thread>)
    | SpuriousProducer(p: Thread)
    | Stop

  function AsleepWorkers(s: State): set<Thread> {
    set w | w in s.workers && s.workers[w].Asleep?
  }

  function WokenWorkers(s: State): set<Thread> {
    set w | w in s.workers && s.workers[w].Woken?
  }

  function BlockedProducers(s: State): set<Thread> {
    set p | p in s.producers && s.producers[p].Blocked?
  }

  function RousedProducers(s: State): set<Thread> {
    set p | p in s.producers && s.producers[p].Roused?
  }

  predicate IsFull(s: State) {
    s.maxSize > 0 && |s.queue| >= s.maxSize
  }

  // notify wakes one waiter if there is one.
  predicate Wakes(waiters: set<Thread>, wake: Option<Thread>) {
    match wake
    case None => waiters == {}
    case Some(t) => t in waiters
  }

  predicate Enabled(s: State, step: Step) {
    match step
    case Test(w) => w in s.workers && s.workers[w].Testing?
    case Take(w, wake) =>
      && w in s.workers && (s.workers[w].Arriving? || s.workers[w].Woken?)
      && Wakes(if s.queue != [] && s.maxSize > 0 then BlockedProducers(s) else {}, wake)
    case Finish(w) => w in s.workers && s.workers[w].Busy? && (w in s.producers ==> s.producers[w].Idle?)
    case SpuriousWorker(w) => w in AsleepWorkers(s)
    case Run(p, _, wake) =>
      && p in s.producers && s.producers[p].Idle?
      && (p in s.workers ==> s.workers[p].Busy?)
      && Wakes(if IsFull(s) then {} else AsleepWorkers(s), wake)
    case Retry(p, wake) =>
      && p in RousedProducers(s)
      && Wakes(if IsFull(s) then {} else AsleepWorkers(s), wake)
    case SpuriousProducer(p) => p in BlockedProducers(s)
    case Stop => true
  }

  function WakeWorker(workers: map<Thread, Worker>, wake: Option<Thread>): map<Thread, Worker> {
    if wake.Some? && wake.value in workers then workers[wake.value := Woken] else workers
  }

  function WakeProducer(producers: map<Thread, Producer>, wake: Option<Thread>): map<Thread, Producer> {
    if wake.Some? && wake.value in producers && producers[wake.value].Blocked?
    then producers[wake.value := Roused(producers[wake.value].task)] else producers
  }

  // One turn around the wait loop of run().
  function Submit(s: State, p: Thread, task: Task, wake: Option<Thread>): State {
    if IsFull(s) then s.(producers := s.producers[p := Blocked(task)])
    else s.(queue := s.queue + [task], submitted := s.submitted + [task],
            producers := s.producers[p := Idle], workers := WakeWorker(s.workers, wake))
  }

  // One turn around the wait loop of takeTask().
  function TakeTask(s: State, w: Thread, wake: Option<Thread>): State {
    if s.queue == [] && s.running then s.(workers := s.workers[w := Asleep])
    else if s.queue == [] then s.(workers := s.workers[w := Busy])
    else s.(queue := s.queue[1..], taken := s.taken + [s.queue[0]],
            late := if s.running || w !in s.late then s.late else s.late[w := s.late[w] + 1],
            workers := s.workers[w := Busy], producers := WakeProducer(s.producers, wake))
  }

  // notifyAll on notEmpty_ only.
  function StopAll(s: State): State {
    s.(running := false,
       workers := map w | w in s.workers :: if s.workers[w].Asleep? then Woken else s.workers[w])
  }

  function Next(s: State, step: Step): State
    requires Enabled(s, step)
  {
    match step
    case Test(w) => s.(workers := s.workers[w := if s.running then Arriving else Exited])
    case Take(w, wake) => TakeTask(s, w, wake)
    case Finish(w) => s.(workers := s.workers[w := Testing])
    case SpuriousWorker(w) => s.(workers := s.workers[w := Woken])
    case Run(p, task, wake) => Submit(s, p, task, wake)
    case Retry(p, wake) => Submit(s, p, s.producers[p].task, wake)
    case SpuriousProducer(p) => s.(producers := s.producers[p := Roused(s.producers[p].task)])
    case Stop => StopAll(s)
  }

  // The pool just after start(), with any workers and callers of run().
  predicate Started(s: State) {
    && s.queue == [] && s.running && s.submitted == [] && s.taken == []
    && s.workers != map[]
    && (forall w :: w in s.workers ==> s.workers[w].Testing?)
    && (forall p :: p in s.producers ==> s.producers[p].Idle?)
    && s.late.Keys == s.workers.Keys
    && (forall w :: w in s.late ==> s.late[w] == 0)
  }

  predicate IsRun(s: State, steps: seq<Step>)
    decreases steps
  {
    steps == [] || (Enabled(s, steps[0]) && IsRun(Next(s, steps[0]), steps[1..]))
  }

  function Exec(s: State, steps: seq<Step>): State
    requires IsRun(s, steps)
    decreases steps
  {
    if steps == [] then s else Exec(Next(s, steps[0]), steps[1..])
  }

  // ------------------------------------------------------------ invariant

  // While a worker sleeps, enough others are on their way to take what is
  // queued.
  ghost predicate WorkersCovered(s: State) {
    AsleepWorkers(s) != {} ==> s.running && |s.queue| <= |WokenWorkers(s)|
  }

  // While a producer is blocked, enough others are on their way to use up the
  // free places.
  ghost predicate ProducersCovered(s: State) {
    BlockedProducers(s) != {} ==> s.maxSize > 0 && s.maxSize - |s.queue| <= |RousedProducers(s)|
  }

  ghost predicate Bounded(s: State) {
    s.maxSize > 0 ==> |s.queue| <= s.maxSize
  }

  ghost predicate Conserved(s: State) {
    s.submitted == s.taken + s.queue
  }

  ghost predicate FewLate(s: State) {
    && s.workers != map[]
    && s.late.Keys == s.workers.Keys
    && (forall w :: w in s.late ==> s.late[w] <= 1)
    && (forall w :: w in s.late && (s.running || s.workers[w].Arriving? || s.workers[w].Asleep? || s.workers[w].Woken?) ==>
          s.late[w] == 0)
    && (s.running ==> forall w :: w in s.workers ==> !s.workers[w].Exited?)
  }

  ghost predicate Inv(s: State) {
    WorkersCovered(s) && ProducersCovered(s) && Bounded(s) && Conserved(s) && FewLate(s)
  }

  lemma Added(a: set<Thread>, t: Thread)
    ensures t !in a ==> |a + {t}| == |a| + 1
    ensures t in a ==> |a - {t}| == |a| - 1
  {
  }

  lemma SubmitKeepsWorkers(s: State, p: Thread, task: Task, wake: Option<Thread>)
    requires WorkersCovered(s) && Wakes(if IsFull(s) then {} else AsleepWorkers(s), wake)
    ensures WorkersCovered(Submit(s, p, task, wake))
  {
    var t := Submit(s, p, task, wake);
    if !IsFull(s) && wake.Some? {
      assert WokenWorkers(t) == WokenWorkers(s) + {wake.value};
      assert AsleepWorkers(t) == AsleepWorkers(s) - {wake.value};
      Added(WokenWorkers(s), wake.value);
    } else {
      assert AsleepWorkers(t) == AsleepWorkers(s) && WokenWorkers(t) == WokenWorkers(s);
    }
  }

  lemma SubmitKeepsProducers(s: State, p: Thread, task: Task, wake: Option<Thread>)
    requires ProducersCovered(s) && Bounded(s) && p in s.producers && !s.producers[p].Blocked?
    ensures ProducersCovered(Submit(s, p, task, wake)) && Bounded(Submit(s, p, task, wake))
  {
    var t := Submit(s, p, task, wake);
    Added(RousedProducers(s), p);
    assert RousedProducers(t) == RousedProducers(s) - {p};
    if !IsFull(s) {
      assert BlockedProducers(t) == BlockedProducers(s);
      if p !in RousedProducers(s) {
        assert RousedProducers(t) == RousedProducers(s);
      }
    }
  }

  lemma TakeKeepsWorkers(s: State, w: Thread, wake: Option<Thread>)
    requires WorkersCovered(s) && w in s.workers && (s.workers[w].Arriving? || s.workers[w].Woken?)
    ensures WorkersCovered(TakeTask(s, w, wake))
  {
    var t := TakeTask(s, w, wake);
    Added(WokenWorkers(s), w);
    assert WokenWorkers(t) == WokenWorkers(s) - {w};
    if s.workers[w].Arriving? {
      assert WokenWorkers(t) == WokenWorkers(s);
    }
    if s.queue != [] || !s.running {
      assert AsleepWorkers(t) == AsleepWorkers(s);
    }
  }

  lemma TakeKeepsProducers(s: State, w: Thread, wake: Option<Thread>)
    requires ProducersCovered(s) && Bounded(s)
    requires Wakes(if s.queue != [] && s.maxSize > 0 then BlockedProducers(s) else {}, wake)
    ensures ProducersCovered(TakeTask(s, w, wake)) && Bounded(TakeTask(s, w, wake))
  {
    var t := TakeTask(s, w, wake);
    if s.queue != [] && wake.Some? {
      assert RousedProducers(t) == RousedProducers(s) + {wake.value};
      assert BlockedProducers(t) == BlockedProducers(s) - {wake.value};
      Added(RousedProducers(s), wake.value);
    } else {
      assert RousedProducers(t) == RousedProducers(s) && BlockedProducers(t) == BlockedProducers(s);
    }
  }

  lemma WakingKeepsWorkers(s: State, step: Step)
    requires WorkersCovered(s) && Enabled(s, step) && (step.SpuriousWorker? || step.Stop?)
    ensures WorkersCovered(Next(s, step))
  {
    var t := Next(s, step);
    if step.SpuriousWorker? {
      assert WokenWorkers(t) == WokenWorkers(s) + {step.w};
      assert AsleepWorkers(t) == AsleepWorkers(s) - {step.w};
    } else {
      assert AsleepWorkers(t) == {};
    }
  }

  lemma OtherStepsKeepWorkers(s: State, step: Step)
    requires WorkersCovered(s) && Enabled(s, step)
    requires step.Test? || step.Finish? || step.SpuriousProducer?
    ensures WorkersCovered(Next(s, step))
  {
    var t := Next(s, step);
    assert WokenWorkers(t) == WokenWorkers(s) && AsleepWorkers(t) == AsleepWorkers(s);
  }

  lemma OtherStepsKeepProducers(s: State, step: Step)
    requires ProducersCovered(s) && Enabled(s, step) && !step.Take? && !step.Run? && !step.Retry?
    ensures ProducersCovered(Next(s, step))
  {
    var t := Next(s, step);
    if step.SpuriousProducer? {
      assert step.p !in RousedProducers(s);
      Added(RousedProducers(s), step.p);
      assert RousedProducers(t) == RousedProducers(s) + {step.p};
      assert BlockedProducers(t) == BlockedProducers(s) - {step.p};
    } else {
      assert RousedProducers(t) == RousedProducers(s) && BlockedProducers(t) == BlockedProducers(s);
    }
  }

  lemma StepConserves(s: State, step: Step)
    requires Conserved(s) && Enabled(s, step)
    ensures Conserved(Next(s, step))
  {
    if step.Take? && s.queue != [] {
      assert s.queue == [s.queue[0]] + s.queue[1..];
    }
  }

  lemma StepKeepsFewLate(s: State, step: Step)
    requires FewLate(s) && Enabled(s, step)
    ensures FewLate(Next(s, step))
  {
    var t := Next(s, step);
    assert t.workers != map[] by {
      var w :| w in s.workers;
      assert w in t.workers;
    }
  }

  lemma StepKeepsInv(s: State, step: Step)
    requires Inv(s) && Enabled(s, step)
    ensures Inv(Next(s, step))
  {
    StepConserves(s, step);
    StepKeepsFewLate(s, step);
    match step
    case Take(w, wake) =>
      TakeKeepsWorkers(s, w, wake);
      TakeKeepsProducers(s, w, wake);
    case Run(p, task, wake) =>
      SubmitKeepsWorkers(s, p, task, wake);
      SubmitKeepsProducers(s, p, task, wake);
    case Retry(p, wake) =>
      SubmitKeepsWorkers(s, p, s.producers[p].task, wake);
      SubmitKeepsProducers(s, p, s.producers[p].task, wake);
    case _ =>
      OtherStepsKeepProducers(s, step);
      if step.SpuriousWorker? || step.Stop? {
        WakingKeepsWorkers(s, step);
      } else {
        OtherStepsKeepWorkers(s, step);
      }
  }

  lemma {:induction false} RunKeepsInv(s: State, steps: seq<Step>)
    requires Inv(s) && IsRun(s, steps)
    ensures Inv(Exec(s, steps))
    decreases steps
  {
    if steps != [] {
      StepKeepsInv(s, steps[0]);
      RunKeepsInv(Next(s, steps[0]), steps[1..]);
    }
  }

  lemma StartedInv(s: State)
    requires Started(s)
    ensures Inv(s)
  {
    assert AsleepWorkers(s) == {} && BlockedProducers(s) == {};
  }

  // ------------------------------------------------------------- theorems

  // Single notifies lose no signal: whenever tasks are queued and a worker
  // sleeps, another one is awake and on its way to the queue; likewise for
  // free places and blocked producers.
  lemma NoLostSignal(s: State, steps: seq<Step>)
    requires Started(s) && IsRun(s, steps)
    ensures var t := Exec(s, steps);
      && (t.queue != [] && AsleepWorkers(t) != {} ==> WokenWorkers(t) != {})
      && (!IsFull(t) && BlockedProducers(t) != {} ==> RousedProducers(t) != {})
  {
    StartedInv(s);
    RunKeepsInv(s, steps);
  }

  // It is impossible that every worker of a running pool sleeps while a task is
  // queued, or while a producer is blocked with none on its way.
  lemma NoDeadlock(s: State, steps: seq<Step>)
    requires Started(s) && IsRun(s, steps)
    requires var t := Exec(s, steps); t.running && AsleepWorkers(t) == t.workers.Keys
    ensures var t := Exec(s, steps);
      t.queue == [] && (BlockedProducers(t) != {} ==> RousedProducers(t) != {})
  {
    StartedInv(s);
    RunKeepsInv(s, steps);
    var t := Exec(s, steps);
    var w :| w in t.workers;
    assert w in AsleepWorkers(t);
    assert WokenWorkers(t) == {} by {
      forall v | v in t.workers
        ensures !t.workers[v].Woken?
      {
        assert v in AsleepWorkers(t);
      }
    }
  }

  // A thread inside run() is not in the middle of taking a task.
  ghost predicate OneRole(s: State) {
    forall t :: t in s.producers && t in s.workers && !s.producers[t].Idle? ==> s.workers[t].Busy?
  }

  lemma {:induction false} RunKeepsOneRole(s: State, steps: seq<Step>)
    requires OneRole(s) && IsRun(s, steps)
    ensures OneRole(Exec(s, steps))
    decreases steps
  {
    if steps != [] {
      hide IsRun, Exec;
      Unfold(s, steps);
      StepKeepsOneRole(s, steps[0]);
      RunKeepsOneRole(Next(s, steps[0]), steps[1..]);
    }
  }

  lemma StepKeepsOneRole(s: State, step: Step)
    requires OneRole(s) && Enabled(s, step)
    ensures OneRole(Next(s, step))
  {
  }

  lemma Unfold(s: State, steps: seq<Step>)
    requires IsRun(s, steps) && steps != []
    ensures Enabled(s, steps[0]) && IsRun(Next(s, steps[0]), steps[1..])
    ensures Exec(s, steps) == Exec(Next(s, steps[0]), steps[1..])
  {
  }

  // ------------------------------------------------- when a task is taken

  predicate InsideRun(s: State, t: Thread) {
    t in s.producers && !s.producers[t].Idle?
  }

  predicate NoSpurious(steps: seq<Step>) {
    forall i :: 0 <= i < |steps| ==> !steps[i].SpuriousProducer? && !steps[i].SpuriousWorker?
  }

  ghost predicate TakesMore(s: State, steps: seq<Step>) {
    IsRun(s, steps) && |Exec(s, steps).taken| > |s.taken|
  }

  // The task can be taken from here, by this worker or one that is under way.
  predicate Able(s: State, w: Thread) {
    w in s.workers && (!InsideRun(s, w) || (s.producers[w].Roused? && !IsFull(s)))
  }

  lemma PrependMore(s: State, step: Step, steps: seq<Step>)
    requires Enabled(s, step) && TakesMore(Next(s, step), steps) && |Next(s, step).taken| >= |s.taken|
    requires NoSpurious(steps)
    ensures TakesMore(s, [step] + steps)
    ensures !step.SpuriousProducer? && !step.SpuriousWorker? ==> NoSpurious([step] + steps)
  {
    hide Next, Enabled, IsRun, Exec;
    Prepend(s, step, steps, [step] + steps);
  }

  lemma TakeNow(s: State, w: Thread) returns (steps: seq<Step>)
    requires s.queue != [] && w in s.workers && (s.workers[w].Arriving? || s.workers[w].Woken?)
    ensures TakesMore(s, steps) && NoSpurious(steps)
  {
    var wake := None;
    if s.maxSize > 0 && BlockedProducers(s) != {} {
      var p :| p in BlockedProducers(s);
      wake := Some(p);
    }
    assert Enabled(s, Take(w, wake));
    var t := Next(s, Take(w, wake));
    assert |t.taken| == |s.taken| + 1;
    assert IsRun(t, []) && Exec(t, []) == t;
    hide Next, Enabled, IsRun, Exec;
    steps := [Take(w, wake)];
    Prepend(s, Take(w, wake), [], steps);
  }

  // A worker outside run() and awake gets to the queue by its own steps.
  lemma AwakeTakes(s: State, w: Thread) returns (steps: seq<Step>)
    requires s.running && s.queue != [] && w in s.workers && !InsideRun(s, w)
    requires !s.workers[w].Asleep? && !s.workers[w].Exited?
    ensures TakesMore(s, steps) && NoSpurious(steps)
    decreases if s.workers[w].Busy? then 1 else 0
  {
    if s.workers[w].Busy? {
      var t := Next(s, Finish(w));
      hide TakesMore, NoSpurious;
      steps := AwakeTakes(t, w);
      PrependMore(s, Finish(w), steps);
      steps := [Finish(w)] + steps;
    } else if s.workers[w].Testing? {
      var t := Next(s, Test(w));
      hide TakesMore, NoSpurious;
      steps := TakeNow(t, w);
      PrependMore(s, Test(w), steps);
      steps := [Test(w)] + steps;
    } else {
      steps := TakeNow(s, w);
    }
  }

  // If it sleeps, another one has been woken.
  lemma OutsideTakes(s: State, w: Thread) returns (steps: seq<Step>)
    requires Inv(s) && OneRole(s) && s.running && s.queue != [] && w in s.workers && !InsideRun(s, w)
    ensures TakesMore(s, steps) && NoSpurious(steps)
  {
    hide TakesMore, NoSpurious;
    if s.workers[w].Asleep? {
      assert w in AsleepWorkers(s);
      assert WokenWorkers(s) != {};
      var v :| v in WokenWorkers(s);
      steps := AwakeTakes(s, v);
    } else {
      steps := AwakeTakes(s, w);
    }
  }

  lemma RetryLeaves(s: State, w: Thread) returns (wake: Option<Thread>)
    requires Inv(s) && OneRole(s) && s.running && w in s.workers && w in RousedProducers(s) && !IsFull(s)
    ensures Enabled(s, Retry(w, wake))
    ensures var t := Next(s, Retry(w, wake));
      && Inv(t) && OneRole(t) && t.running && t.queue != [] && w in t.workers && !InsideRun(t, w)
      && t.taken == s.taken
  {
    wake := None;
    if AsleepWorkers(s) != {} {
      var v :| v in AsleepWorkers(s);
      wake := Some(v);
    }
    var step := Retry(w, wake);
    assert Enabled(s, step);
    StepKeepsInv(s, step);
    StepKeepsOneRole(s, step);
    hide Inv, OneRole;
  }

  lemma AbleTakes(s: State, w: Thread) returns (steps: seq<Step>)
    requires Inv(s) && OneRole(s) && s.running && s.queue != [] && Able(s, w)
    ensures TakesMore(s, steps) && NoSpurious(steps)
  {
    if !InsideRun(s, w) {
      steps := OutsideTakes(s, w);
    } else {
      assert w in RousedProducers(s);
      hide Inv, OneRole, TakesMore, NoSpurious;
      var wake := RetryLeaves(s, w);
      hide Next, Enabled;
      steps := OutsideTakes(Next(s, Retry(w, wake)), w);
      PrependMore(s, Retry(w, wake), steps);
      steps := [Retry(w, wake)] + steps;
    }
  }

  // Every worker is inside run(), and waits there or will.
  ghost predicate Stuck(s: State) {
    forall w :: w in s.workers ==>
      s.workers[w].Busy? && InsideRun(s, w) && (s.producers[w].Blocked? || IsFull(s))
  }

  lemma StuckStep(s: State, step: Step)
    requires Stuck(s) && Enabled(s, step)
    ensures Next(s, step).taken == s.taken
    ensures (!step.SpuriousProducer? || IsFull(s)) ==> Stuck(Next(s, step))
    ensures IsFull(s) ==> IsFull(Next(s, step))
  {
  }

  lemma {:induction false} StuckStays(s: State, steps: seq<Step>)
    requires Stuck(s) && IsRun(s, steps) && (IsFull(s) || NoSpurious(steps))
    ensures Exec(s, steps).taken == s.taken
    decreases steps
  {
    if steps != [] {
      hide IsRun, Exec, Next, Enabled, Stuck;
      Unfold(s, steps);
      StuckStep(s, steps[0]);
      assert forall i :: 0 <= i < |steps| - 1 ==> steps[1..][i] == steps[i + 1];
      StuckStays(Next(s, steps[0]), steps[1..]);
    }
  }

  lemma ReachablePool(s: State, steps: seq<Step>)
    requires Started(s) && IsRun(s, steps)
    ensures Inv(Exec(s, steps)) && OneRole(Exec(s, steps))
  {
    StartedInv(s);
    RunKeepsInv(s, steps);
    RunKeepsOneRole(s, steps);
  }

  // In a running pool with a task queued, the pool's own steps, with no help
  // from spurious wakeups, can take it if and only if some worker is outside
  // run(), or was woken inside it while there is room.
  lemma TaskIsTakenIff(s: State, steps: seq<Step>)
    requires Started(s) && IsRun(s, steps)
    requires var t := Exec(s, steps); t.running && t.queue != []
    ensures var t := Exec(s, steps);
      (exists more :: TakesMore(t, more) && NoSpurious(more)) <==> exists w :: Able(t, w)
  {
    ReachablePool(s, steps);
    hide IsRun, Exec, Next;
    var t := Exec(s, steps);
    if w :| Able(t, w) {
      var more := AbleTakes(t, w);
    } else {
      assert Stuck(t) by {
        forall w | w in t.workers
          ensures InsideRun(t, w) && (t.producers[w].Blocked? || IsFull(t))
        {
          assert !Able(t, w);
        }
      }
      forall more | IsRun(t, more) && NoSpurious(more)
        ensures !TakesMore(t, more)
      {
        StuckStays(t, more);
      }
    }
  }

  lemma SpuriousFrees(s: State, w: Thread) returns (steps: seq<Step>)
    requires Inv(s) && OneRole(s) && s.running && s.queue != [] && w in s.workers && w in BlockedProducers(s) && !IsFull(s)
    ensures TakesMore(s, steps)
  {
    var step := SpuriousProducer(w);
    StepKeepsInv(s, step);
    StepKeepsOneRole(s, step);
    var t := Next(s, step);
    assert Able(t, w) && t.taken == s.taken;
    hide Inv, OneRole, TakesMore, NoSpurious, Next, Enabled;
    steps := AbleTakes(t, w);
    assert Enabled(s, step);
    PrependMore(s, step, steps);
    steps := [step] + steps;
  }

  // With spurious wakeups allowed for: some run takes it if and only if some
  // worker is outside run() or there is room.
  lemma TaskCanBeTakenIff(s: State, steps: seq<Step>)
    requires Started(s) && IsRun(s, steps)
    requires var t := Exec(s, steps); t.running && t.queue != []
    ensures var t := Exec(s, steps);
      (exists more :: TakesMore(t, more)) <==> !IsFull(t) || exists w :: w in t.workers && !InsideRun(t, w)
  {
    ReachablePool(s, steps);
    hide IsRun, Exec, Next;
    var t := Exec(s, steps);
    if w :| w in t.workers && !InsideRun(t, w) {
      var more := OutsideTakes(t, w);
    } else if !IsFull(t) {
      var w :| w in t.workers;
      assert InsideRun(t, w);
      if t.producers[w].Blocked? {
        assert w in BlockedProducers(t);
        var more := SpuriousFrees(t, w);
      } else {
        assert Able(t, w);
        var more := AbleTakes(t, w);
      }
    } else {
      assert Stuck(t);
      forall more | IsRun(t, more)
        ensures !TakesMore(t, more)
      {
        StuckStays(t, more);
      }
    }
  }

  lemma {:induction false} RunKeepsThreads(s: State, steps: seq<Step>)
    requires IsRun(s, steps)
    ensures var t := Exec(s, steps);
      t.maxSize == s.maxSize && t.workers.Keys == s.workers.Keys && t.producers.Keys == s.producers.Keys
    decreases steps
  {
    if steps != [] {
      hide IsRun, Exec;
      Unfold(s, steps);
      StepKeepsThreads(s, steps[0]);
      RunKeepsThreads(Next(s, steps[0]), steps[1..]);
    }
  }

  lemma StepKeepsThreads(s: State, step: Step)
    requires Enabled(s, step)
    ensures var t := Next(s, step);
      t.maxSize == s.maxSize && t.workers.Keys == s.workers.Keys && t.producers.Keys == s.producers.Keys
  {
  }

  // What the user of a pool can arrange beforehand: with an unbounded queue, or
  // one worker whose tasks never call run(), a queued task can always be taken.
  lemma PlainPoolTakes(s: State, steps: seq<Step>)
    requires Started(s) && IsRun(s, steps)
    requires s.maxSize == 0 || exists w :: w in s.workers && w !in s.producers
    requires var t := Exec(s, steps); t.running && t.queue != []
    ensures exists more :: TakesMore(Exec(s, steps), more) && NoSpurious(more)
  {
    ReachablePool(s, steps);
    RunKeepsThreads(s, steps);
    TaskIsTakenIff(s, steps);
    hide IsRun, Exec, TakesMore;
    var t := Exec(s, steps);
    if s.maxSize == 0 {
      var w :| w in t.workers;
      assert BlockedProducers(t) == {};
      assert w in t.producers && t.producers[w].Blocked? ==> w in BlockedProducers(t);
      assert Able(t, w);
    } else {
      var w :| w in s.workers && w !in s.producers;
      assert w in t.workers.Keys && w !in t.producers.Keys;
      assert Able(t, w);
    }
  }

  // The stuck pool is reachable: the only worker runs a task that calls run()
  // while the queue is full.
  function OwnPool(): State {
    State([], true, 1, map[0 := Testing], map[0 := Idle, 1 := Idle], [], [], map[0 := 0])
  }

  function OwnSteps(): seq<Step> {
    [Test(0), Run(1, 11, None), Take(0, None), Run(1, 22, None), Run(0, 33, None)]
  }

  // The pool after the worker has taken the first task, and its second filling.
  function OwnPoolBusy(queue: seq<Task>): State {
    State(queue, true, 1, map[0 := Busy], map[0 := Idle, 1 := Idle], [11] + queue, [11], map[0 := 0])
  }

  lemma OwnPoolFills()
    ensures Started(OwnPool())
    ensures IsRun(OwnPoolBusy([22]), [Run(0, 33, None)])
    ensures Exec(OwnPoolBusy([22]), [Run(0, 33, None)])
         == OwnPoolBusy([22]).(producers := map[0 := Blocked(33), 1 := Idle])
    ensures Enabled(OwnPoolBusy([]), Run(1, 22, None)) && Next(OwnPoolBusy([]), Run(1, 22, None)) == OwnPoolBusy([22])
  {
    assert 0 in OwnPool().workers;
    assert AsleepWorkers(OwnPoolBusy([])) == {};
    var s, t := OwnPoolBusy([22]), OwnPoolBusy([22]).(producers := map[0 := Blocked(33), 1 := Idle]);
    assert Next(s, Run(0, 33, None)) == t;
    assert IsRun(t, []) && Exec(t, []) == t;
    hide IsRun, Exec;
    Prepend(s, Run(0, 33, None), [], [Run(0, 33, None)]);
  }

  // The pool after the worker's first test, and after the first task came.
  function OwnPoolReady(queue: seq<Task>): State {
    State(queue, true, 1, map[0 := Arriving], map[0 := Idle, 1 := Idle], queue, [], map[0 := 0])
  }

  lemma OwnPoolTests()
    ensures Enabled(OwnPool(), Test(0)) && Next(OwnPool(), Test(0)) == OwnPoolReady([])
  {
  }

  lemma OwnPoolIsGiven()
    ensures Enabled(OwnPoolReady([]), Run(1, 11, None)) && Next(OwnPoolReady([]), Run(1, 11, None)) == OwnPoolReady([11])
  {
    assert AsleepWorkers(OwnPoolReady([])) == {};
  }

  lemma OwnPoolTakes()
    ensures Enabled(OwnPoolReady([11]), Take(0, None)) && Next(OwnPoolReady([11]), Take(0, None)) == OwnPoolBusy([])
  {
    assert BlockedProducers(OwnPoolReady([11])) == {};
  }

  lemma OwnPoolStarts(rest: seq<Step>)
    requires IsRun(OwnPoolBusy([]), rest)
    ensures var all := [Test(0)] + ([Run(1, 11, None)] + ([Take(0, None)] + rest));
      IsRun(OwnPool(), all) && Exec(OwnPool(), all) == Exec(OwnPoolBusy([]), rest)
  {
    OwnPoolTests();
    OwnPoolIsGiven();
    OwnPoolTakes();
    hide *;
    Prepend(OwnPoolReady([11]), Take(0, None), rest, [Take(0, None)] + rest);
    Prepend(OwnPoolReady([]), Run(1, 11, None), [Take(0, None)] + rest, [Run(1, 11, None)] + ([Take(0, None)] + rest));
    Prepend(OwnPool(), Test(0), [Run(1, 11, None)] + ([Take(0, None)] + rest),
            [Test(0)] + ([Run(1, 11, None)] + ([Take(0, None)] + rest)));
  }

  lemma WorkerBlocksItself()
    ensures Started(OwnPool()) && IsRun(OwnPool(), OwnSteps())
    ensures var t := Exec(OwnPool(), OwnSteps());
      t.running && t.queue == [22] && t.workers == map[0 := Busy] && t.producers == map[0 := Blocked(33), 1 := Idle]
  {
    OwnPoolFills();
    var last := [Run(1, 22, None), Run(0, 33, None)];
    assert OwnSteps() == [Test(0)] + ([Run(1, 11, None)] + ([Take(0, None)] + last));
    hide IsRun, Exec, Next, Enabled, Started, OwnPool;
    Prepend(OwnPoolBusy([]), Run(1, 22, None), [Run(0, 33, None)], last);
    OwnPoolStarts(last);
  }

  // Tasks come out in the order they went in, none lost or doubled, and the
  // queue never exceeds its maximum.
  lemma TasksConserved(s: State, steps: seq<Step>)
    requires Started(s) && IsRun(s, steps)
    ensures var t := Exec(s, steps);
      t.submitted == t.taken + t.queue && (t.maxSize > 0 ==> |t.queue| <= t.maxSize)
  {
    StartedInv(s);
    RunKeepsInv(s, steps);
  }

  // After stop no worker sleeps unsignalled, and each takes at most one more
  // task before it exits.
  lemma StopReleasesWorkers(s: State, steps: seq<Step>)
    requires Started(s) && IsRun(s, steps)
    ensures var t := Exec(s, steps);
      !t.running ==> AsleepWorkers(t) == {} && forall w :: w in t.late ==> t.late[w] <= 1
  {
    StartedInv(s);
    RunKeepsInv(s, steps);
  }

  // stop does not notify notFull_, so only a worker that is inside takeTask can
  // still release a blocked producer.
  predicate InTakeTask(s: State, w: Thread) {
    w in s.workers && (s.workers[w].Arriving? || s.workers[w].Asleep? || s.workers[w].Woken?)
  }

  ghost predicate NoneInTakeTask(s: State) {
    forall w :: !InTakeTask(s, w)
  }

  predicate NoSpuriousProducer(steps: seq<Step>, p: Thread) {
    forall i :: 0 <= i < |steps| ==> steps[i] != SpuriousProducer(p)
  }

  lemma StoppedStep(s: State, step: Step, p: Thread)
    requires !s.running && NoneInTakeTask(s) && p in BlockedProducers(s)
    requires Enabled(s, step) && step != SpuriousProducer(p)
    ensures var t := Next(s, step); !t.running && NoneInTakeTask(t) && p in BlockedProducers(t)
  {
    var t := Next(s, step);
    assert AsleepWorkers(s) == {} by {
      assert forall w :: w in AsleepWorkers(s) ==> InTakeTask(s, w);
    }
    assert forall w, wake :: step == Take(w, wake) ==> InTakeTask(s, w);
    assert forall w :: InTakeTask(t, w) ==> InTakeTask(s, w);
  }

  lemma {:induction false} BlockedForEver(s: State, steps: seq<Step>, p: Thread)
    requires IsRun(s, steps) && !s.running && NoneInTakeTask(s) && p in BlockedProducers(s)
    requires NoSpuriousProducer(steps, p)
    ensures p in BlockedProducers(Exec(s, steps))
    decreases steps
  {
    if steps != [] {
      hide IsRun, Exec, Next, Enabled, BlockedProducers, NoneInTakeTask;
      Unfold(s, steps);
      StoppedStep(s, steps[0], p);
      assert forall i :: 0 <= i < |steps| - 1 ==> steps[1..][i] == steps[i + 1];
      BlockedForEver(Next(s, steps[0]), steps[1..], p);
    }
  }

  // A worker inside takeTask with a task queued takes it and wakes p.
  lemma TakeReleases(s: State, w: Thread, p: Thread)
    requires Bounded(s) && ProducersCovered(s) && OneRole(s) && s.queue != []
    requires w in s.workers && (s.workers[w].Arriving? || s.workers[w].Woken?) && p in BlockedProducers(s)
    ensures IsRun(s, [Take(w, Some(p))]) && p !in BlockedProducers(Exec(s, [Take(w, Some(p))]))
  {
    var t := Next(s, Take(w, Some(p)));
    assert p !in BlockedProducers(t);
    assert IsRun(t, []) && Exec(t, []) == t;
    hide IsRun, Exec, Next, Enabled;
    assert Enabled(s, Take(w, Some(p)));
    Prepend(s, Take(w, Some(p)), [], [Take(w, Some(p))]);
  }

  // With an empty queue another producer, already on its way, first brings one.
  lemma RousedBrings(s: State, r: Thread, w: Thread, p: Thread)
    requires Inv(s) && OneRole(s) && !s.running && s.queue == [] && r in RousedProducers(s) && p in BlockedProducers(s)
    requires w in s.workers && (s.workers[w].Arriving? || s.workers[w].Woken?)
    ensures AsleepWorkers(s) == {} && Enabled(s, Retry(r, None))
    ensures var t := Next(s, Retry(r, None));
      Inv(t) && OneRole(t) && !t.running && t.queue != [] && p in BlockedProducers(t) && t.workers == s.workers
  {
    assert s.maxSize > 0;
    assert AsleepWorkers(s) == {};
    assert Enabled(s, Retry(r, None));
    StepKeepsOneRole(s, Retry(r, None));
    var t := Next(s, Retry(r, None));
    assert t.queue == [s.producers[r].task] && t.producers == s.producers[r := Idle] && t.workers == s.workers;
    hide Inv, Next, Enabled, OneRole;
    StepKeepsInv(s, Retry(r, None));
  }

  lemma SomeRelease(s: State, w: Thread, p: Thread) returns (steps: seq<Step>)
    requires Inv(s) && OneRole(s) && !s.running && InTakeTask(s, w) && p in BlockedProducers(s)
    ensures IsRun(s, steps) && NoSpuriousProducer(steps, p) && p !in BlockedProducers(Exec(s, steps))
  {
    assert !s.workers[w].Asleep? by {
      assert w in AsleepWorkers(s) <==> s.workers[w].Asleep?;
    }
    if s.queue != [] {
      TakeReleases(s, w, p);
      steps := [Take(w, Some(p))];
    } else {
      assert RousedProducers(s) != {};
      var r :| r in RousedProducers(s);
      RousedBrings(s, r, w, p);
      var t := Next(s, Retry(r, None));
      TakeReleases(t, w, p);
      hide IsRun, Exec, Next, Enabled;
      steps := [Retry(r, None), Take(w, Some(p))];
      Prepend(s, Retry(r, None), [Take(w, Some(p))], steps);
    }
  }

  // Exactly when stop leaves a blocked producer behind: it can still be
  // released, other than by a spurious end of its own wait, if and only if some
  // worker is inside takeTask at the stop.
  lemma StopStrandsIff(s: State, p: Thread)
    requires Inv(s) && OneRole(s) && p in BlockedProducers(s)
    ensures var t := Next(s, Stop);
      (exists steps :: IsRun(t, steps) && NoSpuriousProducer(steps, p) && p !in BlockedProducers(Exec(t, steps)))
      <==> exists w :: InTakeTask(s, w)
  {
    var t := Next(s, Stop);
    assert p in BlockedProducers(t) && !t.running;
    assert forall w :: InTakeTask(t, w) <==> InTakeTask(s, w);
    StepKeepsInv(s, Stop);
    StepKeepsOneRole(s, Stop);
    hide Inv, OneRole, IsRun, Exec, Next, BlockedProducers;
    if w :| InTakeTask(s, w) {
      var steps := SomeRelease(t, w, p);
    } else {
      forall steps | IsRun(t, steps) && NoSpuriousProducer(steps, p)
        ensures p in BlockedProducers(Exec(t, steps))
      {
        BlockedForEver(t, steps, p);
      }
    }
  }

  lemma Prepend(s: State, step: Step, rest: seq<Step>, steps: seq<Step>)
    requires steps == [step] + rest
    requires Enabled(s, step) && IsRun(Next(s, step), rest)
    ensures IsRun(s, steps) && Exec(s, steps) == Exec(Next(s, step), rest)
  {
    hide Next, Enabled;
    assert steps[0] == step && steps[1..] == rest;
  }

  // A stranded producer is reachable: one worker, a queue of one, two producers. The
  // second producer blocks, the pool stops and the worker leaves.
  function LonePool(): State {
    State([], true, 1, map[0 := Testing], map[1 := Idle, 2 := Idle], [], [], map[0 := 0])
  }

  function StrandingSteps(): seq<Step> {
    [Run(1, 11, None), Run(2, 22, None), Stop, Test(0)]
  }

  lemma LonePoolFills()
    ensures Started(LonePool())
    ensures Enabled(LonePool(), Run(1, 11, None))
    ensures var s := Next(LonePool(), Run(1, 11, None));
      s == State([11], true, 1, map[0 := Testing], map[1 := Idle, 2 := Idle], [11], [], map[0 := 0])
  {
    assert AsleepWorkers(LonePool()) == {};
    assert 0 in LonePool().workers;
  }

  lemma StopStrandsProducer()
    ensures Started(LonePool()) && IsRun(LonePool(), StrandingSteps())
    ensures var t := Exec(LonePool(), StrandingSteps());
      NoneInTakeTask(t) && !t.running && t.queue == [11] && 2 in BlockedProducers(t)
  {
    LonePoolFills();
    var s1 := Next(LonePool(), Run(1, 11, None));
    assert Enabled(s1, Run(2, 22, None));
    var s2 := Next(s1, Run(2, 22, None));
    assert s2 == s1.(producers := map[1 := Idle, 2 := Blocked(22)]);
    var s3 := Next(s2, Stop);
    assert s3.workers == map[0 := Testing];
    var s4 := Next(s3, Test(0));
    assert IsRun(s4, []) && Exec(s4, []) == s4;
    hide IsRun, Exec;
    Prepend(s3, Test(0), [], [Test(0)]);
    Prepend(s2, Stop, [Test(0)], [Stop, Test(0)]);
    Prepend(s1, Run(2, 22, None), [Stop, Test(0)], [Run(2, 22, None), Stop, Test(0)]);
    Prepend(LonePool(), Run(1, 11, None), [Run(2, 22, None), Stop, Test(0)], StrandingSteps());
    assert s4.workers == map[0 := Exited] && s4.producers == map[1 := Idle, 2 := Blocked(22)];
    assert s4.queue == [11];
  }

  // ------------------------------------------------- what the calls lead to

  // The task a producer is waiting to queue, the one a step hands to run(), and
  // the one it puts into the queue.
  function Holding(s: State, p: Thread): seq<Task> {
    if p in s.producers && !s.producers[p].Idle? then [s.producers[p].task] else []
  }

  function Given(step: Step, p: Thread): seq<Task> {
    if step.Run? && step.p == p then [step.task] else []
  }

  function Put(s: State, step: Step): seq<Task>
    requires Enabled(s, step)
  {
    match step
    case Run(_, task, _) => if IsFull(s) then [] else [task]
    case Retry(p, _) => if IsFull(s) then [] else [s.producers[p].task]
    case _ => []
  }

  function PutBy(s: State, step: Step, p: Thread): seq<Task>
    requires Enabled(s, step)
  {
    if (step.Run? || step.Retry?) && step.p == p then Put(s, step) else []
  }

  // Over a run: what p gave to run(), what p put into the queue, and what all
  // producers put into it.
  datatype Supply = Supply(given: seq<Task>, put: seq<Task>, all: seq<Task>)

  function SupplyOf(s: State, steps: seq<Step>, p: Thread): Supply
    requires IsRun(s, steps)
    decreases steps
  {
    if steps == [] then Supply([], [], [])
    else
      var rest := SupplyOf(Next(s, steps[0]), steps[1..], p);
      Supply(Given(steps[0], p) + rest.given, PutBy(s, steps[0], p) + rest.put, Put(s, steps[0]) + rest.all)
  }

  lemma StepSupplies(s: State, step: Step, p: Thread)
    requires Enabled(s, step)
    ensures PutBy(s, step, p) + Holding(Next(s, step), p) == Holding(s, p) + Given(step, p)
    ensures Next(s, step).submitted == s.submitted + Put(s, step)
  {
  }

  // Every task given to run() goes into the queue exactly once, each producer's
  // in call order, at the first turn that finds room; until then the producer
  // holds it. Nothing else goes into the queue.
  lemma {:induction false} EveryCallIsQueuedOnce(s: State, steps: seq<Step>, p: Thread)
    requires IsRun(s, steps)
    ensures var t, m := Exec(s, steps), SupplyOf(s, steps, p);
      && m.put + Holding(t, p) == Holding(s, p) + m.given
      && t.submitted == s.submitted + m.all
    decreases steps
  {
    if steps != [] {
      hide IsRun, Exec;
      Unfold(s, steps);
      StepSupplies(s, steps[0], p);
      var n, rest := Next(s, steps[0]), SupplyOf(Next(s, steps[0]), steps[1..], p);
      hide Next, Enabled, Put, PutBy, Given, Holding;
      EveryCallIsQueuedOnce(n, steps[1..], p);
      Regroup(PutBy(s, steps[0], p), Holding(n, p), Holding(s, p), Given(steps[0], p),
              rest.put, Holding(Exec(n, steps[1..]), p), rest.given);
      Append(s.submitted, Put(s, steps[0]), rest.all);
    }
  }

  // takeTask waits if and only if it finds the queue of a running pool empty;
  // it returns without a task only from a stopped pool.
  lemma TakeWaitsIff(s: State, w: Thread, wake: Option<Thread>)
    requires Enabled(s, Take(w, wake))
    ensures var t := Next(s, Take(w, wake));
      && (t.workers[w].Asleep? <==> s.queue == [] && s.running)
      && (!t.workers[w].Asleep? ==> t.workers[w].Busy?)
      && (t.workers[w].Busy? && t.taken == s.taken ==> !s.running)
      && (s.queue != [] ==> t.taken == s.taken + s.queue[..1] && t.queue == s.queue[1..])
  {
  }

  // The pool runs until the first stop().
  lemma {:induction false} RunningUntilStop(s: State, steps: seq<Step>)
    requires IsRun(s, steps)
    ensures Exec(s, steps).running <==> s.running && Stop !in steps
    decreases steps
  {
    if steps != [] {
      hide IsRun, Exec;
      Unfold(s, steps);
      assert Next(s, steps[0]).running <==> s.running && steps[0] != Stop;
      hide Next, Enabled;
      RunningUntilStop(Next(s, steps[0]), steps[1..]);
      assert Stop in steps <==> steps[0] == Stop || Stop in steps[1..];
    }
  }

  // ----------------------------------------------------- stop ends the workers

  predicate OwnStepsOf(steps: seq<Step>, w: Thread) {
    forall i :: 0 <= i < |steps| ==> (steps[i].Test? || steps[i].Take? || steps[i].Finish?) && steps[i].w == w
  }

  ghost predicate Exits(s: State, steps: seq<Step>, w: Thread) {
    IsRun(s, steps) && OwnStepsOf(steps, w) && w in Exec(s, steps).workers && Exec(s, steps).workers[w].Exited?
  }

  lemma PrependExits(s: State, step: Step, steps: seq<Step>, w: Thread)
    requires Enabled(s, step) && OwnStepsOf([step], w) && Exits(Next(s, step), steps, w)
    ensures Exits(s, [step] + steps, w)
  {
    hide Next, Enabled, IsRun, Exec;
    assert OwnStepsOf([step] + steps, w) by {
      assert [step][0] == step;
    }
    Prepend(s, step, steps, [step] + steps);
  }

  lemma {:induction false} WorkerExits(s: State, w: Thread) returns (steps: seq<Step>)
    requires !s.running && w in s.workers && !InsideRun(s, w) && !s.workers[w].Asleep?
    ensures Exits(s, steps, w)
    decreases match s.workers[w] { case Exited => 0 case Testing => 1 case Busy => 2 case _ => 3 }
  {
    if s.workers[w].Exited? {
      steps := [];
      assert IsRun(s, []) && Exec(s, []) == s;
    } else {
      var wake := None;
      if !s.workers[w].Testing? && !s.workers[w].Busy? && s.queue != [] && s.maxSize > 0 && BlockedProducers(s) != {} {
        var p :| p in BlockedProducers(s);
        wake := Some(p);
      }
      var step :=
        if s.workers[w].Testing? then Test(w) else if s.workers[w].Busy? then Finish(w) else Take(w, wake);
      assert Enabled(s, step);
      var t := Next(s, step);
      assert !t.running && w in t.workers && !InsideRun(t, w);
      hide Exits;
      steps := WorkerExits(t, w);
      PrependExits(s, step, steps, w);
      steps := [step] + steps;
    }
  }

  // After stop(), in every run, a worker that is not inside run() exits by its
  // own steps, from wherever it is.
  lemma StoppedWorkerExits(s: State, steps: seq<Step>, w: Thread) returns (own: seq<Step>)
    requires Started(s) && IsRun(s, steps) && Stop in steps && w in s.workers && !InsideRun(Exec(s, steps), w)
    ensures Exits(Exec(s, steps), own, w)
  {
    RunningUntilStop(s, steps);
    RunKeepsThreads(s, steps);
    StopReleasesWorkers(s, steps);
    hide IsRun, Exec, Exits;
    var t := Exec(s, steps);
    assert w in t.workers.Keys;
    assert t.workers[w].Asleep? ==> w in AsleepWorkers(t);
    own := WorkerExits(t, w);
  }

  // ------------------------------------------------------------- the class

  // The monitor itself. Each method is what one thread does between getting the
  // lock and giving it up, by returning or by waiting.
  class ThreadPool {
    var queue: seq<Task>
    var running: bool
    var maxSize: nat
    ghost var workers: map<Thread, Worker>
    ghost var producers: map<Thread, Producer>
    ghost var submitted: seq<Task>
    ghost var taken: seq<Task>
    ghost var late: map<Thread, nat>

    ghost function Value(): State
      reads this
    {
      State(queue, running, maxSize, workers, producers, submitted, taken, late)
    }

    predicate Full()
      reads this
    {
      maxSize > 0 && |queue| >= maxSize
    }

    // run(); `wake` is whom notEmpty_.notify picks.
    method Offer(p: Thread, task: Task, ghost wake: Option<Thread>) returns (waits: bool)
      modifies this`queue, this`producers, this`submitted, this`workers
      ensures Value() == Submit(old(Value()), p, task, wake) && waits == IsFull(old(Value()))
    {
      waits := Full();
      if waits {
        producers := producers[p := Blocked(task)];
      } else {
        queue := queue + [task];
        submitted := submitted + [task];
        producers := producers[p := Idle];
        workers := WakeWorker(workers, wake);
      }
    }

    // takeTask(); `wake` is whom notFull_.notify picks. Without a task the
    // worker waits, or returns empty-handed once the pool has stopped.
    method Fetch(w: Thread, ghost wake: Option<Thread>) returns (task: Option<Task>, waits: bool)
      modifies this`queue, this`workers, this`taken, this`late, this`producers
      ensures Value() == TakeTask(old(Value()), w, wake)
      ensures waits == (old(queue) == [] && old(running))
      ensures task == if old(queue) == [] then None else Some(old(queue)[0])
    {
      task, waits := None, queue == [] && running;
      if waits {
        workers := workers[w := Asleep];
      } else {
        if queue != [] {
          task := Some(queue[0]);
          queue := queue[1..];
          taken := taken + [task.value];
          late := if running || w !in late then late else late[w := late[w] + 1];
          producers := WakeProducer(producers, wake);
        }
        workers := workers[w := Busy];
      }
    }

    method StopPool()
      modifies this`running, this`workers
      ensures Value() == StopAll(old(Value()))
    {
      running := false;
      workers := map w | w in workers :: if workers[w].Asleep? then Woken else workers[w];
    }
  }
}
