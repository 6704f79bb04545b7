// net/connector.cpp: the retrying connect state machine, with the part of the
// event loop it leans on (functor queue, timers, phases of one iteration) and
// a ledger of the sockets it creates.
module Connectors {
  import opened Options

  const INIT_RETRY_DELAY_MS: nat := 500
  const MAX_RETRY_DELAY_MS: nat := 30000

  type Socket = nat

  datatype Phase = Disconnected | Connecting | Connected

  // A channel stays allocated between its removal from the poller and the
  // deferred resetChannel.
  datatype Channel = Channel(sock: Socket, registered: bool)

  datatype Task = StartTask | StopTask | ResetTask

  // One iteration of the loop dispatches events and timers, then runs a
  // snapshot of the queued functors.
  datatype Loop = Loop(
    pending: seq<Task>,
    snapshot: seq<Task>,
    inFunctors: bool,
    timers: seq<int>,        // due times of delayed startInLoop calls
    clock: int)              // milliseconds

  datatype Ledger = Ledger(
    created: nat,
    owned: Option<Socket>,
    closed: multiset<Socket>,
    handed: multiset<Socket>,
    lost: multiset<Socket>)  // open, and nobody holds the descriptor any more

  datatype Conn = Conn(
    phase: Phase,
    connect: bool,
    channel: Option<Channel>,
    retryDelayMs: nat,
    loop: Loop,
    sockets: Ledger,
    resetAt: int,            // when the latest ResetTask was queued
    delays: seq<nat>,        // retry delays since the delay was last reset
    overlap: bool,           // startInLoop has run while not disconnected
    fault: bool)             // an assert has failed or a null channel_ was used

  // What ::connect returns, and what getSocketError and isSelfConnect say.
  datatype Outcome = InProgress | Transient | Fatal
  datatype WriteResult = SocketError | SelfConnect | Established

  datatype Step =
    | Start(inLoop: bool, outcome: Outcome)
    | Stop
    | Restart(outcome: Outcome)                                // by the loop thread
    | Event(err: bool, out: bool, result: WriteResult)         // the channel is dispatched
    | TimerFires(i: nat, outcome: Outcome)
    | BeginFunctors
    | RunTask(outcome: Outcome)
    | EndFunctors
    | Elapse(ms: nat)

  // ------------------------------------------------------------ operations

  function Min(a: nat, b: nat): nat {
    if a < b then a else b
  }

  function Queue(l: Loop, t: Task): Loop {
    l.(pending := l.pending + [t])
  }

  function Close(k: Ledger, sock: Socket): Ledger {
    k.(closed := k.closed + multiset{sock}, owned := None)
  }

  function Hand(k: Ledger, sock: Socket): Ledger {
    k.(handed := k.handed + multiset{sock}, owned := None)
  }

  function Lose(k: Ledger, sock: Socket): Ledger {
    k.(lost := k.lost + multiset{sock}, owned := None)
  }

  function Create(k: Ledger): Ledger {
    k.(created := k.created + 1, owned := Some(k.created))
  }

  function Retry(s: Conn, sock: Socket): Conn {
    var t := s.(sockets := Close(s.sockets, sock), phase := Disconnected);
    if s.connect then
      t.(loop := s.loop.(timers := s.loop.timers + [s.loop.clock + s.retryDelayMs]),
         delays := s.delays + [s.retryDelayMs],
         retryDelayMs := Min(s.retryDelayMs * 2, MAX_RETRY_DELAY_MS))
    else t
  }

  function ConnectingOn(s: Conn, sock: Socket): Conn {
    s.(phase := Connecting,
       fault := s.fault || s.channel.Some?,
       channel := Some(Channel(sock, true)))
  }

  function Connect(s: Conn, outcome: Outcome): Conn {
    var sock := s.sockets.created;
    var t := s.(sockets := Create(s.sockets));
    match outcome
    case InProgress => ConnectingOn(t, sock)
    case Transient => Retry(t, sock)
    case Fatal => t.(sockets := Close(t.sockets, sock))
  }

  function StartInLoop(s: Conn, outcome: Outcome): Conn {
    var t := s.(fault := s.fault || !s.phase.Disconnected?, overlap := s.overlap || !s.phase.Disconnected?);
    if s.connect then Connect(t, outcome) else t
  }

  function RemoveAndReset(s: Conn): Conn
    requires s.channel.Some?
  {
    s.(channel := Some(Channel(s.channel.value.sock, false)),
       loop := Queue(s.loop, ResetTask),
       resetAt := s.loop.clock)
  }

  function HandleWrite(s: Conn, result: WriteResult): Conn {
    if s.phase.Connecting? && s.channel.None? then s.(fault := true)
    else if s.phase.Connecting? then
      var sock := s.channel.value.sock;
      var t := RemoveAndReset(s);
      if !result.Established? then Retry(t, sock)
      else
        t.(phase := Connected,
           sockets := if s.connect then Hand(t.sockets, sock) else Close(t.sockets, sock))
    else s.(fault := s.fault || !s.phase.Disconnected?)
  }

  function HandleError(s: Conn): Conn {
    if s.phase.Connecting? && s.channel.None? then s.(fault := true)
    else if s.phase.Connecting? then Retry(RemoveAndReset(s), s.channel.value.sock)
    else s
  }

  // With channel_ null the source dereferences it, and nothing is defined after.
  function StopInLoop(s: Conn): Conn {
    if s.phase.Connecting? && s.channel.None? then s.(fault := true)
    else if s.phase.Connecting? then
      Retry(RemoveAndReset(s.(phase := Disconnected)), s.channel.value.sock)
    else s
  }

  // Dropping a channel that is still registered fails its destructor's assert,
  // and its socket is then open with no one to close it.
  function ResetChannel(s: Conn): Conn {
    if s.channel.Some? && s.channel.value.registered then
      s.(fault := true, sockets := Lose(s.sockets, s.channel.value.sock), channel := None)
    else s.(channel := None)
  }

  function RestartNow(s: Conn, outcome: Outcome): Conn {
    StartInLoop(s.(phase := Disconnected, retryDelayMs := INIT_RETRY_DELAY_MS, delays := [], connect := true), outcome)
  }

  function StartNow(s: Conn, inLoop: bool, outcome: Outcome): Conn {
    var t := s.(connect := true);
    if inLoop then StartInLoop(t, outcome) else t.(loop := Queue(s.loop, StartTask))
  }

  // handleEventWithGuard: the error callback comes before the write callback.
  function Dispatch(s: Conn, err: bool, out: bool, result: WriteResult): Conn
    requires s.phase.Connecting? && s.channel.Some?
  {
    var t := if err then HandleError(s) else s;
    if out then HandleWrite(t, result) else t
  }

  function RunOne(s: Conn, task: Task, outcome: Outcome): Conn {
    match task
    case StartTask => StartInLoop(s, outcome)
    case StopTask => StopInLoop(s)
    case ResetTask => ResetChannel(s)
  }

  // ------------------------------------------------------------------ runs

  function Init(): Conn {
    Conn(Disconnected, false, None, INIT_RETRY_DELAY_MS, Loop([], [], false, [], 0),
         Ledger(0, None, multiset{}, multiset{}, multiset{}), 0, [], false, false)
  }

  // restart() only by the owner of a connection; events only for a registered
  // channel; functors and timers in their phases.
  predicate Enabled(s: Conn, step: Step) {
    match step
    case Start(_, _) => true
    case Stop => true
    case Restart(_) => s.phase.Connected?
    case Event(_, _, _) => !s.loop.inFunctors && s.channel.Some? && s.channel.value.registered && s.phase.Connecting?
    case TimerFires(i, _) => !s.loop.inFunctors && i < |s.loop.timers| && s.loop.timers[i] <= s.loop.clock
    case BeginFunctors => !s.loop.inFunctors
    case RunTask(_) => s.loop.inFunctors && s.loop.snapshot != []
    case EndFunctors => s.loop.inFunctors && s.loop.snapshot == []
    case Elapse(_) => true
  }

  function Next(s: Conn, step: Step): Conn
    requires Enabled(s, step)
  {
    match step
    case Start(inLoop, outcome) => StartNow(s, inLoop, outcome)
    case Stop => s.(connect := false, loop := Queue(s.loop, StopTask))
    case Restart(outcome) => RestartNow(s, outcome)
    case Event(err, out, result) => Dispatch(s, err, out, result)
    case TimerFires(i, outcome) =>
      StartInLoop(s.(loop := s.loop.(timers := s.loop.timers[..i] + s.loop.timers[i + 1..])), outcome)
    case BeginFunctors => s.(loop := s.loop.(inFunctors := true, snapshot := s.loop.pending, pending := []))
    case RunTask(outcome) => RunOne(s.(loop := s.loop.(snapshot := s.loop.snapshot[1..])), s.loop.snapshot[0], outcome)
    case EndFunctors => s.(loop := s.loop.(inFunctors := false))
    case Elapse(ms) => s.(loop := s.loop.(clock := s.loop.clock + ms))
  }

  predicate IsRun(s: Conn, steps: seq<Step>)
    decreases steps
  {
    steps == [] || (Enabled(s, steps[0]) && IsRun(Next(s, steps[0]), steps[1..]))
  }

  function Exec(s: Conn, steps: seq<Step>): Conn
    requires IsRun(s, steps)
    decreases steps
  {
    if steps == [] then s else Exec(Next(s, steps[0]), steps[1..])
  }

  // ------------------------------------------------------------- invariant

  function Count(tasks: seq<Task>, t: Task): nat {
    if tasks == [] then 0 else (if tasks[0] == t then 1 else 0) + Count(tasks[1..], t)
  }

  lemma {:induction false} CountAppend(tasks: seq<Task>, u: Task, t: Task)
    ensures Count(tasks + [u], t) == Count(tasks, t) + if u == t then 1 else 0
  {
    if tasks != [] {
      assert (tasks + [u])[1..] == tasks[1..] + [u];
      CountAppend(tasks[1..], u, t);
    }
  }

  function Queued(l: Loop, t: Task): nat {
    Count(l.snapshot, t) + Count(l.pending, t)
  }

  lemma {:induction false} CountConcat(a: seq<Task>, b: seq<Task>, t: Task)
    ensures Count(a + b, t) == Count(a, t) + Count(b, t)
  {
    if a == [] {
      assert a + b == b;
    } else {
      assert (a + b)[1..] == a[1..] + b;
      CountConcat(a[1..], b, t);
    }
  }

  // A reset comes before any start.
  predicate ResetFirst(tasks: seq<Task>) {
    tasks != [] && (tasks[0].ResetTask? || (!tasks[0].StartTask? && ResetFirst(tasks[1..])))
  }

  lemma {:induction false} ResetFirstAppend(tasks: seq<Task>, t: Task)
    ensures ResetFirst(tasks) ==> ResetFirst(tasks + [t])
    ensures Count(tasks, StartTask) == 0 ==> ResetFirst(tasks + [ResetTask])
  {
    if tasks != [] {
      assert (tasks + [t])[1..] == tasks[1..] + [t];
      assert (tasks + [ResetTask])[1..] == tasks[1..] + [ResetTask];
      ResetFirstAppend(tasks[1..], t);
    }
  }

  // A removed channel waits for its reset.
  predicate ResetDue(s: Conn) {
    s.channel.Some? && !s.channel.value.registered
  }

  // Every socket made is closed once, handed over once, lost, or the one owned.
  ghost predicate Linear(k: Ledger) {
    forall i: Socket ::
      k.closed[i] + k.handed[i] + k.lost[i] + (if k.owned == Some(i) then 1 else 0) == if i < k.created then 1 else 0
  }

  ghost predicate ChannelInv(s: Conn) {
    && (s.phase.Connecting? <==> s.channel.Some? && s.channel.value.registered)
    && Queued(s.loop, ResetTask) == (if ResetDue(s) then 1 else 0)
    && s.sockets.owned == (if s.phase.Connecting? then Some(s.channel.value.sock) else None)
    && s.sockets.lost == multiset{}
  }

  // Attempts under way or on their way.
  function Starts(s: Conn): nat {
    |s.loop.timers| + Queued(s.loop, StartTask) + if s.phase.Disconnected? then 0 else 1
  }

  // There is at most one, and a channel that waits for its reset gets it first.
  ghost predicate StartInv(s: Conn) {
    && Starts(s) <= 1
    && (ResetDue(s) ==> ResetFirst(s.loop.snapshot + s.loop.pending))
    && s.resetAt <= s.loop.clock
    && (!s.loop.inFunctors ==> s.loop.snapshot == [])
    && (ResetDue(s) ==> forall i :: 0 <= i < |s.loop.timers| ==> s.loop.timers[i] >= s.resetAt + INIT_RETRY_DELAY_MS)
  }

  function Pow2(k: nat): (p: nat)
    ensures p >= 1
  {
    if k == 0 then 1 else 2 * Pow2(k - 1)
  }

  // The k-th delay since a reset.
  function Backoff(k: nat): nat {
    Min(INIT_RETRY_DELAY_MS * Pow2(k), MAX_RETRY_DELAY_MS)
  }

  ghost predicate DelayInv(s: Conn) {
    && s.retryDelayMs == Backoff(|s.delays|)
    && forall k :: 0 <= k < |s.delays| ==> s.delays[k] == Backoff(k)
  }

  ghost predicate Inv(s: Conn) {
    ChannelInv(s) && StartInv(s) && Linear(s.sockets) && DelayInv(s) && !s.fault
  }

  // ------------------------------------------------------ what each step keeps

  lemma LedgerKeeps(k: Ledger, sock: Socket)
    requires Linear(k)
    ensures k.owned == None ==> Linear(Create(k)) && Create(k).owned == Some(k.created)
    ensures k.owned == Some(sock) ==> Linear(Close(k, sock)) && Linear(Hand(k, sock)) && Linear(Lose(k, sock))
  {
    forall i: Socket
      ensures var c := Create(k); k.owned == None ==>
        c.closed[i] + c.handed[i] + c.lost[i] + (if c.owned == Some(i) then 1 else 0) == if i < c.created then 1 else 0
      ensures k.owned == Some(sock) ==> forall c :: c in {Close(k, sock), Hand(k, sock), Lose(k, sock)} ==>
        c.closed[i] + c.handed[i] + c.lost[i] == if i < k.created then 1 else 0
    {
      assert k.closed[i] + k.handed[i] + k.lost[i] + (if k.owned == Some(i) then 1 else 0) == if i < k.created then 1 else 0;
    }
    forall c | c in {Close(k, sock), Hand(k, sock), Lose(k, sock)} && k.owned == Some(sock)
      ensures Linear(c)
    {
      assert c.owned == None && c.created == k.created;
    }
  }

  lemma BackoffStep(k: nat)
    ensures Min(Backoff(k) * 2, MAX_RETRY_DELAY_MS) == Backoff(k + 1)
    ensures INIT_RETRY_DELAY_MS <= Backoff(k)
  {
  }

  // retry, for the socket that is owned and no longer connecting.
  lemma RetryKeeps(s: Conn, sock: Socket)
    requires Linear(s.sockets) && s.sockets.owned == Some(sock) && DelayInv(s)
    ensures var t := Retry(s, sock);
      && Linear(t.sockets) && t.sockets.owned == None && DelayInv(t)
      && t.phase.Disconnected? && t.channel == s.channel
      && t.fault == s.fault && t.resetAt == s.resetAt
      && t.loop == (if s.connect then s.loop.(timers := s.loop.timers + [s.loop.clock + s.retryDelayMs]) else s.loop)
      && s.retryDelayMs >= INIT_RETRY_DELAY_MS
  {
    LedgerKeeps(s.sockets, sock);
    BackoffStep(|s.delays|);
  }

  lemma QueueKeeps(l: Loop, t: Task, u: Task)
    ensures Queued(Queue(l, t), u) == Queued(l, u) + if t == u then 1 else 0
  {
    CountAppend(l.pending, t, u);
  }

  lemma QueueOrder(l: Loop, t: Task)
    ensures ResetFirst(l.snapshot + l.pending) ==> ResetFirst(Queue(l, t).snapshot + Queue(l, t).pending)
    ensures Queued(l, StartTask) == 0 ==> ResetFirst(Queue(l, ResetTask).snapshot + Queue(l, ResetTask).pending)
  {
    var tasks := l.snapshot + l.pending;
    ResetFirstAppend(tasks, t);
    CountConcat(l.snapshot, l.pending, StartTask);
    assert Queue(l, t).snapshot + Queue(l, t).pending == tasks + [t];
    assert Queue(l, ResetTask).snapshot + Queue(l, ResetTask).pending == tasks + [ResetTask];
  }

  lemma RemoveThenRetry(s: Conn)
    requires Inv(s) && s.phase.Connecting?
    ensures Inv(Retry(RemoveAndReset(s), s.channel.value.sock))
  {
    QueueKeeps(s.loop, ResetTask, ResetTask);
    QueueKeeps(s.loop, ResetTask, StartTask);
    QueueOrder(s.loop, ResetTask);
    hide ResetFirst;
    RetryKeeps(RemoveAndReset(s), s.channel.value.sock);
  }

  lemma HandleWriteKeeps(s: Conn, result: WriteResult)
    requires Inv(s) && (s.phase.Connecting? || s.phase.Disconnected?)
    ensures Inv(HandleWrite(s, result))
  {
    if s.phase.Connecting? {
      if result.Established? {
        QueueKeeps(s.loop, ResetTask, ResetTask);
        QueueKeeps(s.loop, ResetTask, StartTask);
        QueueOrder(s.loop, ResetTask);
        LedgerKeeps(s.sockets, s.channel.value.sock);
      } else {
        RemoveThenRetry(s);
      }
    }
  }

  // POLLERR and POLLOUT in one dispatch close the socket once: the write
  // callback finds the state already disconnected.
  lemma DispatchKeeps(s: Conn, err: bool, out: bool, result: WriteResult)
    requires Inv(s) && s.phase.Connecting?
    ensures Inv(Dispatch(s, err, out, result))
    ensures err ==> Dispatch(s, err, out, result) == HandleError(s)
  {
    if err {
      RemoveThenRetry(s);
    } else if out {
      HandleWriteKeeps(s, result);
    }
  }

  // startInLoop needs the phase, and the channel only if it gets as far as
  // connecting.
  predicate Collides(s: Conn, outcome: Outcome) {
    s.connect && outcome.InProgress? && s.channel.Some?
  }

  lemma StartInLoopKeeps(s: Conn, outcome: Outcome)
    requires Inv(s) && s.phase.Disconnected?
    requires s.loop.timers == [] && Queued(s.loop, StartTask) == 0
    ensures StartInLoop(s, outcome).fault <==> Collides(s, outcome)
    ensures !Collides(s, outcome) ==> Inv(StartInLoop(s, outcome))
  {
    if s.connect {
      LedgerKeeps(s.sockets, s.sockets.created);
      var t := s.(sockets := Create(s.sockets));
      match outcome
      case InProgress =>
      case Transient => RetryKeeps(t, s.sockets.created);
      case Fatal => LedgerKeeps(t.sockets, s.sockets.created);
    }
  }

  // The two ways an assert of the source can fail: a connect gets under way
  // while the channel of the previous attempt still waits for its reset.
  predicate Fails(s: Conn, step: Step) {
    match step
    case Restart(outcome) => ResetDue(s) && outcome.InProgress?
    case TimerFires(_, outcome) => ResetDue(s) && s.connect && outcome.InProgress?
    case _ => false
  }

  lemma RestartKeeps(s: Conn, outcome: Outcome)
    requires Inv(s) && s.phase.Connected?
    ensures RestartNow(s, outcome).fault <==> Fails(s, Restart(outcome))
    ensures !Fails(s, Restart(outcome)) ==> Inv(RestartNow(s, outcome))
  {
    var t := s.(phase := Disconnected, retryDelayMs := INIT_RETRY_DELAY_MS, delays := [], connect := true);
    assert Inv(t);
    StartInLoopKeeps(t, outcome);
  }

  lemma TimerKeeps(s: Conn, i: nat, outcome: Outcome)
    requires Inv(s) && Enabled(s, TimerFires(i, outcome))
    ensures Next(s, TimerFires(i, outcome)).fault <==> Fails(s, TimerFires(i, outcome))
    ensures !Fails(s, TimerFires(i, outcome)) ==> Inv(Next(s, TimerFires(i, outcome)))
  {
    var l := s.loop.(timers := s.loop.timers[..i] + s.loop.timers[i + 1..]);
    assert l.timers == [];
    assert Inv(s.(loop := l));
    StartInLoopKeeps(s.(loop := l), outcome);
  }

  // The head of the snapshot is taken off.
  function Dequeued(s: Conn): Conn
    requires s.loop.snapshot != []
  {
    s.(loop := s.loop.(snapshot := s.loop.snapshot[1..]))
  }

  lemma DequeuedTasks(s: Conn)
    requires s.loop.snapshot != []
    ensures var l, m, task := s.loop, Dequeued(s).loop, s.loop.snapshot[0];
      && (forall t :: Queued(m, t) == Queued(l, t) - if t == task then 1 else 0)
      && (ResetFirst(l.snapshot + l.pending) ==>
            task.ResetTask? || (task.StopTask? && ResetFirst(m.snapshot + m.pending)))
  {
    var l := s.loop;
    assert (l.snapshot + l.pending)[1..] == l.snapshot[1..] + l.pending;
  }

  lemma RunTaskKeeps(s: Conn, outcome: Outcome)
    requires Inv(s) && Enabled(s, RunTask(outcome))
    ensures Inv(Next(s, RunTask(outcome)))
  {
    var t := Dequeued(s);
    DequeuedTasks(s);
    hide ResetFirst, Queued, Linear, DelayInv;
    match s.loop.snapshot[0]
    case StartTask =>
      assert Inv(t);
      StartInLoopKeeps(t, outcome);
    case StopTask =>
      assert Inv(t);
      if t.phase.Connecting? {
        RemoveThenRetry(t);
        assert StopInLoop(t) == Retry(RemoveAndReset(t), t.channel.value.sock);
      }
    case ResetTask =>
  }

  // When start() may be called: nothing under way or on its way, and, for a
  // call by the loop's own thread, the last channel is gone.
  predicate SafeStart(s: Conn, inLoop: bool) {
    s.phase.Disconnected? && s.loop.timers == [] && Queued(s.loop, StartTask) == 0 && (inLoop ==> s.channel.None?)
  }

  lemma StartKeeps(s: Conn, inLoop: bool, outcome: Outcome)
    requires Inv(s) && SafeStart(s, inLoop)
    ensures Inv(StartNow(s, inLoop, outcome))
  {
    var t := s.(connect := true);
    if inLoop {
      assert Inv(t);
      StartInLoopKeeps(t, outcome);
    } else {
      QueueKeeps(s.loop, StartTask, StartTask);
      QueueKeeps(s.loop, StartTask, ResetTask);
      QueueOrder(s.loop, StartTask);
      hide ResetFirst, Queued, Linear, DelayInv;
    }
  }

  lemma StopKeeps(s: Conn)
    requires Inv(s)
    ensures Inv(Next(s, Stop))
  {
    QueueKeeps(s.loop, StopTask, StartTask);
    QueueKeeps(s.loop, StopTask, ResetTask);
    QueueOrder(s.loop, StopTask);
    hide ResetFirst, Queued, Linear, Backoff;
  }

  lemma SwapKeeps(s: Conn)
    requires Inv(s) && Enabled(s, BeginFunctors)
    ensures Inv(Next(s, BeginFunctors))
  {
    assert s.loop.snapshot + s.loop.pending == s.loop.pending + [];
    assert forall t :: Queued(Next(s, BeginFunctors).loop, t) == Queued(s.loop, t);
    hide ResetFirst, Queued, Linear, Backoff;
  }

  lemma IdleKeeps(s: Conn, step: Step)
    requires Inv(s) && Enabled(s, step) && (step.EndFunctors? || step.Elapse?)
    ensures Inv(Next(s, step))
  {
    hide ResetFirst, Count, Linear, Backoff;
  }

  lemma StepKeepsInv(s: Conn, step: Step)
    requires Inv(s) && Enabled(s, step) && (step.Start? ==> SafeStart(s, step.inLoop))
    ensures Next(s, step).fault <==> Fails(s, step)
    ensures !Fails(s, step) ==> Inv(Next(s, step))
  {
    hide ChannelInv, StartInv, Linear, DelayInv;
    match step
    case Start(inLoop, outcome) => StartKeeps(s, inLoop, outcome);
    case Restart(outcome) => RestartKeeps(s, outcome);
    case Event(err, out, result) => DispatchKeeps(s, err, out, result);
    case TimerFires(i, outcome) => TimerKeeps(s, i, outcome);
    case RunTask(outcome) => RunTaskKeeps(s, outcome);
    case Stop => StopKeeps(s);
    case BeginFunctors => SwapKeeps(s);
    case EndFunctors => IdleKeeps(s, step);
    case Elapse(_) => IdleKeeps(s, step);
  }

  // ------------------------------------------------------------ whole runs

  // The loop gets to a queued resetChannel in less than the initial retry
  // delay, restart waits for it, and start is called when it may be.
  predicate PromptStep(s: Conn, step: Step) {
    && (step.Elapse? && ResetDue(s) ==> s.loop.clock + step.ms < s.resetAt + INIT_RETRY_DELAY_MS)
    && (step.Restart? ==> !ResetDue(s))
    && (step.Start? ==> SafeStart(s, step.inLoop))
  }

  predicate Prompt(s: Conn, steps: seq<Step>)
    requires IsRun(s, steps)
    decreases steps
  {
    steps == [] || (PromptStep(s, steps[0]) && Prompt(Next(s, steps[0]), steps[1..]))
  }

  predicate ResetPrompt(s: Conn) {
    ResetDue(s) ==> s.loop.clock < s.resetAt + INIT_RETRY_DELAY_MS
  }

  lemma PromptStepIsSafe(s: Conn, step: Step)
    requires Inv(s) && ResetPrompt(s) && Enabled(s, step) && PromptStep(s, step)
    ensures Inv(Next(s, step)) && ResetPrompt(Next(s, step))
  {
    StepKeepsInv(s, step);
    StepKeepsPrompt(s, step);
  }

  lemma DispatchIsPrompt(s: Conn, err: bool, out: bool, result: WriteResult)
    requires ResetPrompt(s) && s.phase.Connecting? && s.channel.Some?
    ensures ResetPrompt(Dispatch(s, err, out, result))
  {
  }

  lemma RunOneIsPrompt(s: Conn, task: Task, outcome: Outcome)
    requires ResetPrompt(s)
    ensures ResetPrompt(RunOne(s, task, outcome))
  {
  }

  lemma StepKeepsPrompt(s: Conn, step: Step)
    requires ResetPrompt(s) && Enabled(s, step) && PromptStep(s, step)
    ensures ResetPrompt(Next(s, step))
  {
    hide Dispatch, RunOne;
    match step
    case Event(err, out, result) => DispatchIsPrompt(s, err, out, result);
    case RunTask(outcome) =>
      RunOneIsPrompt(s.(loop := s.loop.(snapshot := s.loop.snapshot[1..])), s.loop.snapshot[0], outcome);
    case _ =>
  }

  lemma {:induction false} PromptRunKeepsInv(s: Conn, steps: seq<Step>)
    requires Inv(s) && ResetPrompt(s) && IsRun(s, steps) && Prompt(s, steps)
    ensures Inv(Exec(s, steps))
    decreases steps
  {
    if steps != [] {
      PromptStepIsSafe(s, steps[0]);
      PromptRunKeepsInv(Next(s, steps[0]), steps[1..]);
    }
  }

  lemma InitInv()
    ensures Inv(Init())
  {
    var s := Init();
    assert Linear(s.sockets);
    assert DelayInv(s) by {
      assert Pow2(0) == 1;
    }
    hide Linear, DelayInv;
    assert Count([], ResetTask) == 0 && Count([], StartTask) == 0;
    assert ChannelInv(s);
    assert StartInv(s);
  }

  lemma LinearMeans(k: Ledger, i: nat)
    requires Linear(k)
    ensures k.closed[i] + k.handed[i] + k.lost[i] <= 1
    ensures i < k.created ==> (k.closed[i] + k.handed[i] + k.lost[i] == 0 <==> k.owned == Some(i))
  {
    assert k.closed[i] + k.handed[i] + k.lost[i] + (if k.owned == Some(i) then 1 else 0) == if i < k.created then 1 else 0;
  }

  // Every prompt run fails no assert.
  lemma PromptRunsAreSafe(steps: seq<Step>)
    requires IsRun(Init(), steps) && Prompt(Init(), steps)
    ensures !Exec(Init(), steps).fault
  {
    hide Exec, IsRun, Prompt, Next, Linear, DelayInv, StartInv, ChannelInv;
    InitInv();
    PromptRunKeepsInv(Init(), steps);
  }

  // ------------------------------------------------ sockets and delays, any run

  predicate Registered(s: Conn) {
    s.channel.Some? && s.channel.value.registered
  }

  // The socket of the registered channel, which is the only one who can still
  // close it or hand it over.
  function HeldSocket(s: Conn): Option<Socket> {
    if Registered(s) then Some(s.channel.value.sock) else None
  }

  // What holds of the sockets whatever the timing.
  ghost predicate Owner(s: Conn) {
    && Linear(s.sockets)
    && s.sockets.owned == HeldSocket(s)
    && (Registered(s) ==> s.phase.Connecting?)
    && (s.phase.Connecting? && s.channel.Some? ==> Registered(s))
  }

  lemma RetryOwns(s: Conn, sock: Socket)
    requires Linear(s.sockets) && s.sockets.owned == Some(sock) && !Registered(s)
    ensures Owner(Retry(s, sock))
  {
    LedgerKeeps(s.sockets, sock);
  }

  lemma StartInLoopOwns(s: Conn, outcome: Outcome)
    requires Owner(s) && s.phase.Disconnected?
    ensures Owner(StartInLoop(s, outcome))
  {
    if s.connect {
      LedgerKeeps(s.sockets, s.sockets.created);
      var t := s.(sockets := Create(s.sockets));
      LedgerKeeps(t.sockets, s.sockets.created);
      RetryOwns(t, s.sockets.created);
    }
  }

  lemma HandleWriteOwns(s: Conn, result: WriteResult)
    requires Owner(s)
    ensures Owner(HandleWrite(s, result))
  {
    if s.phase.Connecting? && s.channel.Some? {
      var sock := s.channel.value.sock;
      LedgerKeeps(s.sockets, sock);
      RetryOwns(RemoveAndReset(s), sock);
    }
  }

  lemma HandleErrorOwns(s: Conn)
    requires Owner(s)
    ensures Owner(HandleError(s)) && Owner(StopInLoop(s))
  {
    if s.phase.Connecting? && s.channel.Some? {
      var sock := s.channel.value.sock;
      RetryOwns(RemoveAndReset(s), sock);
      RetryOwns(RemoveAndReset(s.(phase := Disconnected)), sock);
    }
  }

  lemma StartInLoopOverlaps(s: Conn, outcome: Outcome)
    ensures StartInLoop(s, outcome).overlap <==> s.overlap || !s.phase.Disconnected?
  {
  }

  lemma StartOwns(s: Conn, outcome: Outcome)
    requires Owner(s)
    ensures !StartInLoop(s, outcome).overlap ==> Owner(StartInLoop(s, outcome))
  {
    StartInLoopOverlaps(s, outcome);
    if s.phase.Disconnected? {
      hide Owner, StartInLoop;
      StartInLoopOwns(s, outcome);
    }
  }

  lemma RunOneOwns(s: Conn, task: Task, outcome: Outcome)
    requires Owner(s)
    ensures !RunOne(s, task, outcome).overlap ==> Owner(RunOne(s, task, outcome))
  {
    hide Owner, StartInLoop, StopInLoop, ResetChannel;
    match task
    case StartTask => StartOwns(s, outcome);
    case StopTask => HandleErrorOwns(s);
    case ResetTask => ResetOwns(s);
  }

  lemma DispatchOwns(s: Conn, err: bool, out: bool, result: WriteResult)
    requires Owner(s) && s.phase.Connecting? && s.channel.Some?
    ensures Owner(Dispatch(s, err, out, result))
  {
    hide Owner, HandleError, HandleWrite;
    HandleErrorOwns(s);
    HandleWriteOwns(if err then HandleError(s) else s, result);
  }

  // The loop's queues say nothing about sockets.
  lemma LoopOwns(s: Conn, l: Loop, connect: bool)
    requires Owner(s)
    ensures Owner(s.(loop := l, connect := connect))
  {
    hide Linear;
  }

  lemma StepKeepsOwner(s: Conn, step: Step)
    requires Owner(s) && Enabled(s, step)
    ensures !Next(s, step).overlap ==> Owner(Next(s, step))
  {
    hide Owner, StartInLoop, Dispatch, RunOne;
    match step
    case Start(inLoop, outcome) =>
      LoopOwns(s, s.loop, true);
      LoopOwns(s, Queue(s.loop, StartTask), true);
      StartOwns(s.(connect := true), outcome);
    case Restart(outcome) =>
      var t := s.(phase := Disconnected, retryDelayMs := INIT_RETRY_DELAY_MS, delays := [], connect := true);
      RestartOwns(s, t);
      StartOwns(t, outcome);
    case Event(err, out, result) => DispatchOwns(s, err, out, result);
    case TimerFires(i, outcome) =>
      var l := s.loop.(timers := s.loop.timers[..i] + s.loop.timers[i + 1..]);
      LoopOwns(s, l, s.connect);
      StartOwns(s.(loop := l), outcome);
    case RunTask(outcome) =>
      LoopOwns(s, Dequeued(s).loop, s.connect);
      RunOneOwns(Dequeued(s), s.loop.snapshot[0], outcome);
    case Stop => LoopOwns(s, Next(s, step).loop, false);
    case BeginFunctors => LoopOwns(s, Next(s, step).loop, s.connect);
    case EndFunctors => LoopOwns(s, Next(s, step).loop, s.connect);
    case Elapse(_) => LoopOwns(s, Next(s, step).loop, s.connect);
  }

  lemma RestartOwns(s: Conn, t: Conn)
    requires Owner(s) && s.phase.Connected? && t.phase.Disconnected?
    requires t.sockets == s.sockets && t.channel == s.channel
    ensures Owner(t)
  {
    hide Linear;
  }

  lemma ResetOwns(s: Conn)
    requires Owner(s)
    ensures Owner(ResetChannel(s))
  {
    if Registered(s) {
      LedgerKeeps(s.sockets, s.channel.value.sock);
    }
  }

  lemma {:induction false} RunKeepsOwner(s: Conn, steps: seq<Step>)
    requires IsRun(s, steps) && (!s.overlap ==> Owner(s))
    ensures var t := Exec(s, steps); !t.overlap ==> Owner(t) && !s.overlap
    decreases steps
  {
    if steps != [] {
      hide Next, Owner;
      OverlapStays(s, steps[0]);
      if !s.overlap {
        StepKeepsOwner(s, steps[0]);
      }
      RunKeepsOwner(Next(s, steps[0]), steps[1..]);
    }
  }

  lemma OverlapStays(s: Conn, step: Step)
    requires Enabled(s, step)
    ensures s.overlap ==> Next(s, step).overlap
  {
  }

  // In every run, whatever its timing, as long as startInLoop has not run while
  // not disconnected: each socket made is closed once, handed over once, lost,
  // or the one owned, and the one owned is that of the registered channel.
  lemma SocketsAreLinear(steps: seq<Step>, i: nat)
    requires IsRun(Init(), steps) && !Exec(Init(), steps).overlap
    ensures var s := Exec(Init(), steps); var k := s.sockets;
      && k.closed[i] + k.handed[i] + k.lost[i] <= 1
      && (i < k.created ==> (k.closed[i] + k.handed[i] + k.lost[i] == 0 <==> k.owned == Some(i)))
      && k.owned == HeldSocket(s)
  {
    RunKeepsOwner(Init(), steps);
    hide Exec, IsRun;
    LinearMeans(Exec(Init(), steps).sockets, i);
  }

  // ------------------------------------------------------- lost sockets

  // A queued resetChannel drops the channel of an attempt under way.
  predicate DropsLive(s: Conn, step: Step) {
    step.RunTask? && s.loop.snapshot != [] && s.loop.snapshot[0].ResetTask? && Registered(s)
  }

  predicate Drops(s: Conn, steps: seq<Step>)
    requires IsRun(s, steps)
    decreases steps
  {
    steps != [] && (DropsLive(s, steps[0]) || Drops(Next(s, steps[0]), steps[1..]))
  }

  lemma RunOneLoses(s: Conn, task: Task, outcome: Outcome)
    ensures RunOne(s, task, outcome).sockets.lost
         == if task.ResetTask? && Registered(s) then s.sockets.lost + multiset{s.channel.value.sock} else s.sockets.lost
  {
  }

  lemma DispatchLosesNothing(s: Conn, err: bool, out: bool, result: WriteResult)
    requires s.phase.Connecting? && s.channel.Some?
    ensures Dispatch(s, err, out, result).sockets.lost == s.sockets.lost
  {
  }

  lemma StepLoses(s: Conn, step: Step)
    requires Enabled(s, step)
    ensures Next(s, step).sockets.lost
         == if DropsLive(s, step) then s.sockets.lost + multiset{s.channel.value.sock} else s.sockets.lost
  {
    hide Dispatch, RunOne;
    match step
    case Event(err, out, result) => DispatchLosesNothing(s, err, out, result);
    case RunTask(outcome) => RunOneLoses(Dequeued(s), s.loop.snapshot[0], outcome);
    case _ =>
  }

  lemma {:induction false} LostIffDropped(s: Conn, steps: seq<Step>)
    requires IsRun(s, steps)
    ensures s.sockets.lost <= Exec(s, steps).sockets.lost
    ensures Exec(s, steps).sockets.lost != s.sockets.lost <==> Drops(s, steps)
    decreases steps
  {
    if steps != [] {
      hide Next, Enabled, DropsLive;
      StepLoses(s, steps[0]);
      LostIffDropped(Next(s, steps[0]), steps[1..]);
    }
  }

  lemma {:induction false} NoFailureKeepsInv(s: Conn, steps: seq<Step>)
    requires Inv(s) && IsRun(s, steps) && StartsSafely(s, steps) && NoFailure(s, steps)
    ensures Inv(Exec(s, steps))
    decreases steps
  {
    if steps != [] {
      hide Next, Enabled, Inv;
      StepKeepsInv(s, steps[0]);
      NoFailureKeepsInv(Next(s, steps[0]), steps[1..]);
    }
  }

  lemma InvLosesNothing(s: Conn, i: nat)
    requires Inv(s)
    ensures !s.fault && s.sockets.lost == multiset{} && s.sockets.owned == HeldSocket(s) && Linear(s.sockets)
  {
    hide Linear, StartInv, DelayInv;
  }

  // Exactly when a socket is lost, in any run with safe starts: some queued
  // reset runs while the channel is registered; and then a connect had got under
  // way before that reset, which failed an assert.
  lemma SocketIsLostIff(steps: seq<Step>)
    requires IsRun(Init(), steps) && StartsSafely(Init(), steps)
    ensures var t := Exec(Init(), steps);
      && (t.sockets.lost != multiset{} <==> Drops(Init(), steps))
      && (t.sockets.lost != multiset{} ==> !NoFailure(Init(), steps) && t.fault)
  {
    InitInv();
    hide Exec, IsRun, NoFailure, StartsSafely, Drops, Inv;
    LostIffDropped(Init(), steps);
    FaultIffFails(Init(), steps);
    if NoFailure(Init(), steps) {
      NoFailureKeepsInv(Init(), steps);
      InvLosesNothing(Exec(Init(), steps), 0);
    }
  }

  // With no assert failed, nothing is lost: every socket is closed once, handed
  // over once, or in the registered channel.
  lemma NoFaultLosesNothing(steps: seq<Step>, i: nat)
    requires IsRun(Init(), steps) && StartsSafely(Init(), steps) && !Exec(Init(), steps).fault
    ensures var s := Exec(Init(), steps); var k := s.sockets;
      && k.lost == multiset{} && k.closed[i] + k.handed[i] <= 1
      && (i < k.created ==> (k.closed[i] + k.handed[i] == 0 <==> HeldSocket(s) == Some(i)))
  {
    InitInv();
    hide Exec, IsRun, NoFailure, StartsSafely, Inv;
    FaultIffFails(Init(), steps);
    NoFailureKeepsInv(Init(), steps);
    InvLosesNothing(Exec(Init(), steps), i);
    LinearMeans(Exec(Init(), steps).sockets, i);
  }

  // Starts made when they may be, and any timing, keep it that way.
  predicate StartsSafely(s: Conn, steps: seq<Step>)
    requires IsRun(s, steps)
    decreases steps
  {
    steps == [] ||
    (&& (steps[0].Start? ==> SafeStart(s, steps[0].inLoop))
     && StartsSafely(Next(s, steps[0]), steps[1..]))
  }

  predicate OneAttempt(s: Conn) {
    Starts(s) <= 1 && !s.overlap && (!s.loop.inFunctors ==> s.loop.snapshot == [])
  }

  lemma StartInLoopOnce(s: Conn, outcome: Outcome)
    requires s.phase.Disconnected? && Starts(s) == 0
    ensures Starts(StartInLoop(s, outcome)) <= 1 && StartInLoop(s, outcome).overlap == s.overlap
    ensures StartInLoop(s, outcome).loop.snapshot == s.loop.snapshot
    ensures StartInLoop(s, outcome).loop.inFunctors == s.loop.inFunctors
  {
  }

  lemma DispatchOnce(s: Conn, err: bool, out: bool, result: WriteResult)
    requires OneAttempt(s) && s.phase.Connecting? && s.channel.Some?
    ensures OneAttempt(Dispatch(s, err, out, result))
  {
    QueueKeeps(s.loop, ResetTask, StartTask);
    hide Count;
  }

  lemma RunTaskOnce(s: Conn, outcome: Outcome)
    requires OneAttempt(s) && Enabled(s, RunTask(outcome))
    ensures OneAttempt(Next(s, RunTask(outcome)))
  {
    var t := Dequeued(s);
    DequeuedTasks(s);
    QueueKeeps(t.loop, ResetTask, StartTask);
    hide Queued, ResetFirst, StartInLoop;
    if s.loop.snapshot[0].StartTask? {
      StartInLoopOnce(t, outcome);
    }
  }

  lemma StepKeepsOneAttempt(s: Conn, step: Step)
    requires OneAttempt(s) && Enabled(s, step) && (step.Start? ==> SafeStart(s, step.inLoop))
    ensures OneAttempt(Next(s, step))
  {
    match step
    case Start(inLoop, outcome) =>
      if inLoop {
        StartInLoopOnce(s.(connect := true), outcome);
      } else {
        QueueKeeps(s.loop, StartTask, StartTask);
      }
    case Stop => QueueKeeps(s.loop, StopTask, StartTask);
    case Restart(outcome) =>
      StartInLoopOnce(s.(phase := Disconnected, retryDelayMs := INIT_RETRY_DELAY_MS, delays := [], connect := true), outcome);
    case Event(err, out, result) => DispatchOnce(s, err, out, result);
    case TimerFires(i, outcome) =>
      StartInLoopOnce(s.(loop := s.loop.(timers := s.loop.timers[..i] + s.loop.timers[i + 1..])), outcome);
    case RunTask(outcome) => RunTaskOnce(s, outcome);
    case BeginFunctors =>
    case EndFunctors =>
    case Elapse(_) =>
  }

  lemma {:induction false} SafeStartsNeverOverlap(s: Conn, steps: seq<Step>)
    requires OneAttempt(s) && IsRun(s, steps) && StartsSafely(s, steps)
    ensures OneAttempt(Exec(s, steps))
    decreases steps
  {
    if steps != [] {
      hide Next, OneAttempt;
      StepKeepsOneAttempt(s, steps[0]);
      SafeStartsNeverOverlap(Next(s, steps[0]), steps[1..]);
    }
  }

  // A socket that is lost leaves the connector connecting without a channel. No
  // run with safe starts ever gets it out of that state, and no socket is made,
  // closed or handed over again.
  predicate Dead(s: Conn) {
    s.phase.Connecting? && s.channel.None? && OneAttempt(s.(overlap := false))
  }

  lemma DeadTask(s: Conn, outcome: Outcome)
    requires Dead(s) && Enabled(s, RunTask(outcome))
    ensures Dead(Next(s, RunTask(outcome))) && Next(s, RunTask(outcome)).sockets == s.sockets
  {
    DequeuedTasks(s);
    hide ResetFirst, Queued;
  }

  lemma DeadStep(s: Conn, step: Step)
    requires Dead(s) && Enabled(s, step) && (step.Start? ==> SafeStart(s, step.inLoop))
    ensures Dead(Next(s, step)) && Next(s, step).sockets == s.sockets
  {
    match step
    case RunTask(outcome) => DeadTask(s, outcome);
    case Stop => QueueKeeps(s.loop, StopTask, StartTask);
    case Start(_, _) =>
    case Restart(_) =>
    case Event(_, _, _) =>
    case TimerFires(_, _) =>
    case BeginFunctors =>
    case EndFunctors =>
    case Elapse(_) =>
  }

  lemma {:induction false} DeadForEver(s: Conn, steps: seq<Step>)
    requires Dead(s) && IsRun(s, steps) && StartsSafely(s, steps)
    ensures Dead(Exec(s, steps)) && Exec(s, steps).sockets == s.sockets
    decreases steps
  {
    if steps != [] {
      hide Next, Enabled, Dead;
      DeadStep(s, steps[0]);
      DeadForEver(Next(s, steps[0]), steps[1..]);
    }
  }

  lemma DroppingKills(s: Conn, step: Step)
    requires OneAttempt(s) && Owner(s) && Enabled(s, step) && DropsLive(s, step)
    ensures Dead(Next(s, step))
  {
    DequeuedTasks(s);
    hide ResetFirst, Queued, Linear;
  }

  // A run with safe starts that loses a socket ends dead, whatever comes after
  // the loss.
  lemma {:induction false} LostMeansDead(s: Conn, steps: seq<Step>)
    requires OneAttempt(s) && Owner(s) && s.sockets.lost == multiset{} && IsRun(s, steps) && StartsSafely(s, steps)
    ensures Exec(s, steps).sockets.lost != multiset{} ==> Dead(Exec(s, steps))
    decreases steps
  {
    if steps != [] {
      hide Next, Enabled, Owner, OneAttempt, Dead, DropsLive;
      StepLoses(s, steps[0]);
      if DropsLive(s, steps[0]) {
        DroppingKills(s, steps[0]);
        DeadForEver(Next(s, steps[0]), steps[1..]);
      } else {
        StepKeepsOneAttempt(s, steps[0]);
        NoOverlap(Next(s, steps[0]));
        StepKeepsOwner(s, steps[0]);
        LostMeansDead(Next(s, steps[0]), steps[1..]);
      }
    }
  }

  lemma NoOverlap(s: Conn)
    requires OneAttempt(s)
    ensures !s.overlap
  {
  }

  lemma RetryDelays(s: Conn, sock: Socket)
    requires DelayInv(s)
    ensures DelayInv(Retry(s, sock))
  {
    BackoffStep(|s.delays|);
  }

  lemma StartInLoopDelays(s: Conn, outcome: Outcome)
    requires DelayInv(s)
    ensures DelayInv(StartInLoop(s, outcome))
  {
    var sock := s.sockets.created;
    RetryDelays(s.(sockets := Create(s.sockets), fault := s.fault || !s.phase.Disconnected?,
                   overlap := s.overlap || !s.phase.Disconnected?), sock);
    hide Backoff;
  }

  lemma EndAttemptDelays(s: Conn, result: WriteResult)
    requires DelayInv(s)
    ensures DelayInv(HandleWrite(s, result)) && DelayInv(HandleError(s)) && DelayInv(StopInLoop(s))
  {
    if s.phase.Connecting? && s.channel.Some? {
      RetryDelays(RemoveAndReset(s), s.channel.value.sock);
      RetryDelays(RemoveAndReset(s.(phase := Disconnected)), s.channel.value.sock);
    }
    hide Backoff;
  }

  lemma RestartDelays(s: Conn)
    requires s.retryDelayMs == INIT_RETRY_DELAY_MS && s.delays == []
    ensures DelayInv(s)
  {
    assert Pow2(0) == 1;
  }

  lemma StepKeepsDelays(s: Conn, step: Step)
    requires DelayInv(s) && Enabled(s, step)
    ensures DelayInv(Next(s, step))
  {
    hide StartInLoop, HandleWrite, HandleError, StopInLoop, Backoff;
    match step
    case Start(_, outcome) => StartInLoopDelays(s.(connect := true), outcome);
    case Restart(outcome) =>
      var t := s.(phase := Disconnected, retryDelayMs := INIT_RETRY_DELAY_MS, delays := [], connect := true);
      RestartDelays(t);
      StartInLoopDelays(t, outcome);
    case Event(err, out, result) =>
      EndAttemptDelays(s, result);
      EndAttemptDelays(if err then HandleError(s) else s, result);
    case TimerFires(i, outcome) =>
      StartInLoopDelays(s.(loop := s.loop.(timers := s.loop.timers[..i] + s.loop.timers[i + 1..])), outcome);
    case RunTask(outcome) =>
      StartInLoopDelays(Dequeued(s), outcome);
      EndAttemptDelays(Dequeued(s), SocketError);
    case _ =>
  }

  lemma {:induction false} RunKeepsDelays(s: Conn, steps: seq<Step>)
    requires DelayInv(s) && IsRun(s, steps)
    ensures DelayInv(Exec(s, steps))
    decreases steps
  {
    if steps != [] {
      hide Next, DelayInv;
      StepKeepsDelays(s, steps[0]);
      RunKeepsDelays(Next(s, steps[0]), steps[1..]);
    }
  }

  // In every run the k-th retry since the delay was last reset waits 500 * 2^k
  // milliseconds, and never more than 30 seconds.
  lemma BackoffIsExponential(steps: seq<Step>, k: nat)
    requires IsRun(Init(), steps)
    ensures var s := Exec(Init(), steps);
      k < |s.delays| ==> s.delays[k] == Min(500 * Pow2(k), 30000)
  {
    InitInv();
    hide Exec, IsRun, Next, Pow2, Linear, StartInv, ChannelInv;
    RunKeepsDelays(Init(), steps);
  }

  // Whatever the timing, the first failing step of a run is a connect that got
  // under way before the previous channel was reset.
  predicate NoFailure(s: Conn, steps: seq<Step>)
    requires IsRun(s, steps)
    decreases steps
  {
    steps == [] || (!Fails(s, steps[0]) && NoFailure(Next(s, steps[0]), steps[1..]))
  }

  lemma {:induction false} FaultNeverHeals(s: Conn, steps: seq<Step>)
    requires IsRun(s, steps) && s.fault
    ensures Exec(s, steps).fault
    decreases steps
  {
    if steps != [] {
      FaultNeverHeals(Next(s, steps[0]), steps[1..]);
    }
  }

  lemma {:induction false} FaultIffFails(s: Conn, steps: seq<Step>)
    requires Inv(s) && IsRun(s, steps) && StartsSafely(s, steps)
    ensures Exec(s, steps).fault <==> !NoFailure(s, steps)
    decreases steps
  {
    if steps != [] {
      StepKeepsInv(s, steps[0]);
      if Fails(s, steps[0]) {
        FaultNeverHeals(Next(s, steps[0]), steps[1..]);
      } else {
        FaultIffFails(Next(s, steps[0]), steps[1..]);
      }
    }
  }

  lemma Prepend(s: Conn, step: Step, rest: seq<Step>, steps: seq<Step>)
    requires steps == [step] + rest
    requires Enabled(s, step) && IsRun(Next(s, step), rest)
    ensures IsRun(s, steps) && Exec(s, steps) == Exec(Next(s, step), rest)
  {
    hide Next, Enabled;
    assert steps[0] == step && steps[1..] == rest;
  }

  // It can happen: an attempt fails, the same round of event handlers takes
  // half a second, and the timer handler of that round starts the next attempt
  // before the functors have run.
  function SlowRound(): seq<Step> {
    [Start(true, InProgress), Event(true, false, SocketError), Elapse(500), TimerFires(0, InProgress)]
  }

  // The state in which that round leaves the connector: a new attempt under way,
  // and the reset of the old channel still queued.
  function AfterSlowRound(): Conn {
    Conn(Connecting, true, Some(Channel(1, true)), 1000, Loop([ResetTask], [], false, [], 500),
         Ledger(2, Some(1), multiset{0}, multiset{}, multiset{}), 0, [500], false, true)
  }

  // One attempt has failed and waits for its retry.
  function AfterFailure(): Conn {
    Conn(Disconnected, true, Some(Channel(0, false)), 1000, Loop([ResetTask], [], false, [500], 0),
         Ledger(1, None, multiset{0}, multiset{}, multiset{}), 0, [500], false, false)
  }

  lemma FirstAttemptFails(rest: seq<Step>)
    requires IsRun(AfterFailure(), rest)
    ensures var all := [Start(true, InProgress)] + ([Event(true, false, SocketError)] + rest);
      IsRun(Init(), all) && Exec(Init(), all) == Exec(AfterFailure(), rest)
  {
    var s1 := Next(Init(), Start(true, InProgress));
    assert Enabled(s1, Event(true, false, SocketError)) && Next(s1, Event(true, false, SocketError)) == AfterFailure();
    hide IsRun, Exec, Next, AfterFailure;
    Prepend(s1, Event(true, false, SocketError), rest, [Event(true, false, SocketError)] + rest);
    Prepend(Init(), Start(true, InProgress), [Event(true, false, SocketError)] + rest,
            [Start(true, InProgress)] + ([Event(true, false, SocketError)] + rest));
  }

  lemma SlowRoundRuns(rest: seq<Step>)
    requires IsRun(AfterSlowRound(), rest)
    ensures IsRun(Init(), SlowRound() + rest) && Exec(Init(), SlowRound() + rest) == Exec(AfterSlowRound(), rest)
  {
    var s2 := AfterFailure();
    var s3 := s2.(loop := s2.loop.(clock := 500));
    assert Next(s2, Elapse(500)) == s3;
    assert Enabled(s3, TimerFires(0, InProgress)) && Next(s3, TimerFires(0, InProgress)) == AfterSlowRound();
    hide IsRun, Exec, Next, AfterSlowRound, AfterFailure;
    var late := [TimerFires(0, InProgress)] + rest;
    Prepend(s3, TimerFires(0, InProgress), rest, late);
    Prepend(s2, Elapse(500), late, [Elapse(500)] + late);
    FirstAttemptFails([Elapse(500)] + late);
    assert SlowRound() + rest == [Start(true, InProgress)] + ([Event(true, false, SocketError)] + ([Elapse(500)] + late));
  }

  lemma SlowRoundFails()
    ensures IsRun(Init(), SlowRound()) && Exec(Init(), SlowRound()).fault
  {
    assert IsRun(AfterSlowRound(), []) && Exec(AfterSlowRound(), []) == AfterSlowRound();
    hide IsRun, Exec;
    SlowRoundRuns([]);
    assert SlowRound() + [] == SlowRound();
  }

  // And when the round goes on, the queued reset drops the channel of the second
  // attempt: its socket is lost and the connector dead.
  lemma SlowRoundLoses()
    ensures var steps := SlowRound() + [BeginFunctors, RunTask(InProgress)];
      && IsRun(Init(), steps)
      && Exec(Init(), steps).sockets.lost == multiset{1} && Dead(Exec(Init(), steps))
  {
    var s := AfterSlowRound();
    var s1 := Next(s, BeginFunctors);
    assert s1 == s.(loop := Loop([], [ResetTask], true, [], 500));
    var s2 := Next(s1, RunTask(InProgress));
    assert s2.phase.Connecting? && s2.channel.None? && s2.loop == Loop([], [], true, [], 500);
    assert s2.sockets.lost == multiset{1};
    assert Dead(s2);
    assert IsRun(s2, []) && Exec(s2, []) == s2;
    hide IsRun, Exec, Next, AfterSlowRound;
    Prepend(s1, RunTask(InProgress), [], [RunTask(InProgress)]);
    Prepend(s, BeginFunctors, [RunTask(InProgress)], [BeginFunctors, RunTask(InProgress)]);
    SlowRoundRuns([BeginFunctors, RunTask(InProgress)]);
  }

  // -------------------------------------------------------- further starts

  // Two attempts on their way at once, in a state that no assert has left yet.
  ghost predicate Crowded(s: Conn) {
    && s.connect && Starts(s) >= 2 && !s.fault
    && (s.phase.Connecting? <==> s.channel.Some? && s.channel.value.registered)
    && (ResetDue(s) ==> Queued(s.loop, ResetTask) > 0)
    && (!s.loop.inFunctors ==> s.loop.snapshot == [])
  }

  function Load(l: Loop): nat {
    |l.snapshot| + |l.pending| + Queued(l, StopTask)
  }

  lemma CrowdedTask(s: Conn)
    requires Crowded(s) && Enabled(s, RunTask(InProgress))
    ensures var t := Next(s, RunTask(InProgress)); t.fault || (Crowded(t) && Load(t.loop) < Load(s.loop))
  {
    var t := Dequeued(s);
    DequeuedTasks(s);
    QueueKeeps(t.loop, ResetTask, ResetTask);
    QueueKeeps(t.loop, ResetTask, StartTask);
    QueueKeeps(t.loop, ResetTask, StopTask);
    hide ResetFirst, Queued;
  }

  // All timers are due, and the first of them, or the second, collides.
  lemma TimersCollide(s: Conn) returns (steps: seq<Step>)
    requires Crowded(s) && !s.loop.inFunctors && s.loop.pending == []
    ensures IsRun(s, steps) && Prompt(s, steps) && Exec(s, steps).fault
  {
    assert !ResetDue(s);
    var timers := s.loop.timers;
    var wait := if timers == [] then 0 else Later(timers[0] - s.loop.clock, if |timers| > 1 then timers[1] - s.loop.clock else 0);
    var s1 := Next(s, Elapse(wait));
    var s2 := Next(s1, TimerFires(0, InProgress));
    if s.phase.Disconnected? {
      var s3 := Next(s2, TimerFires(0, InProgress));
      assert s3.fault;
      Last(s3);
      steps := [TimerFires(0, InProgress)];
      PromptPrepend(s2, TimerFires(0, InProgress), [], steps);
    } else {
      assert s2.fault;
      Last(s2);
      steps := [];
    }
    hide IsRun, Exec, Prompt, Next;
    PromptPrepend(s1, TimerFires(0, InProgress), steps, [TimerFires(0, InProgress)] + steps);
    PromptPrepend(s, Elapse(wait), [TimerFires(0, InProgress)] + steps,
                  [Elapse(wait)] + ([TimerFires(0, InProgress)] + steps));
    steps := [Elapse(wait)] + ([TimerFires(0, InProgress)] + steps);
  }

  function Later(a: int, b: int): nat {
    if a > b then (if a > 0 then a else 0) else if b > 0 then b else 0
  }

  lemma Last(s: Conn)
    ensures IsRun(s, []) && Prompt(s, []) && Exec(s, []) == s
  {
  }

  lemma PromptPrepend(s: Conn, step: Step, rest: seq<Step>, steps: seq<Step>)
    requires steps == [step] + rest
    requires Enabled(s, step) && PromptStep(s, step) && IsRun(Next(s, step), rest) && Prompt(Next(s, step), rest)
    ensures IsRun(s, steps) && Prompt(s, steps)
    ensures Exec(s, steps) == Exec(Next(s, step), rest)
  {
    hide Next, Enabled, PromptStep;
    assert steps[0] == step && steps[1..] == rest;
  }

  // Left to itself, with every connect getting under way, a crowded connector
  // fails an assert.
  lemma CrowdedFails(s: Conn) returns (steps: seq<Step>)
    requires Crowded(s)
    ensures IsRun(s, steps) && Prompt(s, steps) && Exec(s, steps).fault
    decreases Load(s.loop), if !s.loop.inFunctors then 1 else if s.loop.snapshot == [] then 2 else 0
  {
    var step :=
      if !s.loop.inFunctors then BeginFunctors else if s.loop.snapshot == [] then EndFunctors else RunTask(InProgress);
    if !s.loop.inFunctors && s.loop.pending == [] {
      steps := TimersCollide(s);
    } else {
      var t := Next(s, step);
      if step.RunTask? {
        CrowdedTask(s);
      } else {
        assert Queued(t.loop, StartTask) == Queued(s.loop, StartTask);
        assert Queued(t.loop, ResetTask) == Queued(s.loop, ResetTask);
        assert Queued(t.loop, StopTask) == Queued(s.loop, StopTask);
        assert Crowded(t);
      }
      hide Next, IsRun, Exec, Prompt, Crowded;
      if t.fault {
        Last(t);
        steps := [];
      } else {
        steps := CrowdedFails(t);
      }
      PromptPrepend(s, step, steps, [step] + steps);
      steps := [step] + steps;
    }
  }

  lemma UnsafeStartFails(s: Conn, inLoop: bool) returns (steps: seq<Step>)
    requires Inv(s) && !SafeStart(s, inLoop)
    ensures var t := StartNow(s, inLoop, InProgress);
      IsRun(t, steps) && Prompt(t, steps) && Exec(t, steps).fault
  {
    var t := StartNow(s, inLoop, InProgress);
    QueueKeeps(s.loop, StartTask, StartTask);
    QueueKeeps(s.loop, StartTask, ResetTask);
    if t.fault {
      Last(t);
      steps := [];
    } else {
      hide ResetFirst, Queued, Linear, DelayInv;
      assert Crowded(t);
      steps := CrowdedFails(t);
    }
  }

  lemma SafeStartRuns(s: Conn, inLoop: bool, outcome: Outcome, steps: seq<Step>)
    requires Inv(s) && ResetPrompt(s) && SafeStart(s, inLoop)
    requires var t := StartNow(s, inLoop, outcome); IsRun(t, steps) && Prompt(t, steps)
    ensures !Exec(StartNow(s, inLoop, outcome), steps).fault
  {
    PromptStepIsSafe(s, Start(inLoop, outcome));
    hide IsRun, Exec, Prompt;
    PromptRunKeepsInv(StartNow(s, inLoop, outcome), steps);
  }

  // Exactly when a further start() is harmless: whatever the connect returns and
  // however the run goes on promptly, no assert fails, if and only if the
  // connector is disconnected with no attempt on its way and, in the loop's own
  // thread, no channel left.
  lemma StartIsSafeIff(s: Conn, inLoop: bool)
    requires Inv(s) && ResetPrompt(s)
    ensures SafeStart(s, inLoop) <==>
      forall outcome, steps ::
        var t := StartNow(s, inLoop, outcome); IsRun(t, steps) && Prompt(t, steps) ==> !Exec(t, steps).fault
  {
    hide IsRun, Exec, Prompt, StartNow;
    if SafeStart(s, inLoop) {
      forall outcome, steps | IsRun(StartNow(s, inLoop, outcome), steps) && Prompt(StartNow(s, inLoop, outcome), steps)
        ensures !Exec(StartNow(s, inLoop, outcome), steps).fault
      {
        SafeStartRuns(s, inLoop, outcome, steps);
      }
    } else {
      var steps := UnsafeStartFails(s, inLoop);
    }
  }

  // One such run: the first attempt fails and waits for its retry, start() is
  // called again, and the retry finds the second attempt under way.
  function SecondStartSteps(): seq<Step> {
    [Start(true, Transient), Start(true, InProgress), Elapse(500), TimerFires(0, InProgress)]
  }

  // After the two starts: an attempt under way and the retry of the first.
  function TwoAttempts(): Conn {
    Conn(Connecting, true, Some(Channel(1, true)), 1000, Loop([], [], false, [500], 0),
         Ledger(2, Some(1), multiset{0}, multiset{}, multiset{}), 0, [500], false, false)
  }

  lemma TwoStarts(rest: seq<Step>)
    requires IsRun(TwoAttempts(), rest)
    ensures var all := [Start(true, Transient)] + ([Start(true, InProgress)] + rest);
      IsRun(Init(), all) && Exec(Init(), all) == Exec(TwoAttempts(), rest)
  {
    var s1 := Next(Init(), Start(true, Transient));
    assert Next(s1, Start(true, InProgress)) == TwoAttempts();
    hide IsRun, Exec, Next, TwoAttempts;
    Prepend(s1, Start(true, InProgress), rest, [Start(true, InProgress)] + rest);
    Prepend(Init(), Start(true, Transient), [Start(true, InProgress)] + rest,
            [Start(true, Transient)] + ([Start(true, InProgress)] + rest));
  }

  lemma SecondStartFails()
    ensures IsRun(Init(), SecondStartSteps())
    ensures Exec(Init(), SecondStartSteps()).fault && Exec(Init(), SecondStartSteps()).overlap
  {
    var s2 := TwoAttempts();
    var s3 := Next(s2, Elapse(500));
    var s4 := Next(s3, TimerFires(0, InProgress));
    assert s4.fault && s4.overlap;
    assert IsRun(s4, []) && Exec(s4, []) == s4;
    hide IsRun, Exec, Next, TwoAttempts;
    var rest := [Elapse(500), TimerFires(0, InProgress)];
    Prepend(s3, TimerFires(0, InProgress), [], [TimerFires(0, InProgress)]);
    Prepend(s2, Elapse(500), [TimerFires(0, InProgress)], rest);
    TwoStarts(rest);
    assert SecondStartSteps() == [Start(true, Transient)] + ([Start(true, InProgress)] + rest);
  }

  lemma DispatchHandsOver(s: Conn, err: bool, out: bool, result: WriteResult)
    requires s.phase.Connecting? && s.channel.Some?
    ensures Dispatch(s, err, out, result).sockets.handed
         == if !err && out && result.Established? && s.connect
            then s.sockets.handed + multiset{s.channel.value.sock} else s.sockets.handed
  {
  }

  lemma RunOneHandsNothing(s: Conn, task: Task, outcome: Outcome)
    ensures RunOne(s, task, outcome).sockets.handed == s.sockets.handed
  {
  }

  // Only one step hands a socket to the callback: a write event without an
  // error on an established connection that is still wanted. What it hands
  // over is the socket owned.
  lemma HandOverIff(s: Conn, step: Step)
    requires Inv(s) && Enabled(s, step)
    ensures var hands := step.Event? && !step.err && step.out && step.result.Established? && s.connect;
      Next(s, step).sockets.handed
      == if hands then s.sockets.handed + multiset{s.sockets.owned.value} else s.sockets.handed
  {
    hide Linear, DelayInv, StartInv, Queued, Dispatch, RunOne;
    match step
    case Event(err, out, result) => DispatchHandsOver(s, err, out, result);
    case RunTask(outcome) =>
      RunOneHandsNothing(s.(loop := s.loop.(snapshot := s.loop.snapshot[1..])), s.loop.snapshot[0], outcome);
    case _ =>
  }

  // After stop(), and until somebody starts it again, the connector makes no
  // socket and hands none over.
  predicate NoNewStart(steps: seq<Step>) {
    forall i :: 0 <= i < |steps| ==> !steps[i].Start? && !steps[i].Restart?
  }

  predicate Quiet(s: Conn, t: Conn) {
    && !t.connect && t.sockets.created == s.sockets.created && t.sockets.handed == s.sockets.handed
    && |t.loop.timers| <= |s.loop.timers|
  }

  lemma StoppedHandlers(s: Conn, result: WriteResult)
    requires !s.connect
    ensures Quiet(s, HandleError(s)) && Quiet(s, HandleWrite(s, result))
  {
  }

  lemma StoppedTasks(s: Conn, outcome: Outcome)
    requires !s.connect
    ensures Quiet(s, StopInLoop(s)) && Quiet(s, ResetChannel(s)) && Quiet(s, StartInLoop(s, outcome))
  {
  }

  lemma StoppedStep(s: Conn, step: Step)
    requires Enabled(s, step) && !s.connect && !step.Start? && !step.Restart?
    ensures Quiet(s, Next(s, step))
  {
    hide StartInLoop, HandleError, HandleWrite, StopInLoop, ResetChannel;
    match step
    case Event(err, out, result) =>
      StoppedHandlers(s, result);
      StoppedHandlers(HandleError(s), result);
    case TimerFires(i, outcome) =>
      StoppedTasks(s.(loop := s.loop.(timers := s.loop.timers[..i] + s.loop.timers[i + 1..])), outcome);
    case RunTask(outcome) => StoppedTasks(Dequeued(s), outcome);
    case Stop =>
    case BeginFunctors =>
    case EndFunctors =>
    case Elapse(_) =>
  }

  lemma {:induction false} StoppedStaysQuiet(s: Conn, steps: seq<Step>)
    requires IsRun(s, steps) && !s.connect && NoNewStart(steps)
    ensures Quiet(s, Exec(s, steps))
    decreases steps
  {
    if steps != [] {
      hide Next;
      assert !steps[0].Start? && !steps[0].Restart?;
      StoppedStep(s, steps[0]);
      assert forall i :: 0 <= i < |steps| - 1 ==> steps[1..][i] == steps[i + 1];
      StoppedStaysQuiet(Next(s, steps[0]), steps[1..]);
    }
  }

  // -------------------------------------------------- what each step is for

  // The steps that make a socket and connect it.
  predicate Attempts(s: Conn, step: Step) {
    match step
    case Start(inLoop, _) => inLoop
    case Restart(_) => true
    case TimerFires(_, _) => s.connect
    case RunTask(_) => s.connect && s.loop.snapshot != [] && s.loop.snapshot[0].StartTask?
    case _ => false
  }

  // What becomes of that socket.
  ghost predicate AttemptMade(s: Conn, t: Conn, outcome: Outcome) {
    && t.sockets.created == s.sockets.created + 1
    && (outcome.InProgress? ==>
          && t.phase.Connecting? && t.channel == Some(Channel(s.sockets.created, true))
          && t.sockets.owned == Some(s.sockets.created) && t.sockets.closed == s.sockets.closed)
    && (!outcome.InProgress? ==>
          t.channel == s.channel && t.sockets.owned.None?
          && t.sockets.closed == s.sockets.closed + multiset{s.sockets.created})
    && (outcome.Transient? ==> t.phase.Disconnected?)
  }

  lemma StartInLoopMakes(s: Conn, outcome: Outcome)
    ensures s.connect ==> AttemptMade(s, StartInLoop(s, outcome), outcome)
    ensures !s.connect ==> StartInLoop(s, outcome).sockets == s.sockets
  {
  }

  lemma EventsMakeNothing(s: Conn, result: WriteResult)
    ensures HandleError(s).sockets.created == s.sockets.created
    ensures HandleWrite(s, result).sockets.created == s.sockets.created
  {
  }

  lemma TasksMakeNothing(s: Conn)
    ensures StopInLoop(s).sockets.created == s.sockets.created
    ensures ResetChannel(s).sockets.created == s.sockets.created
  {
  }

  // A socket is made if and only if the step is an attempt; it is then in a
  // registered channel if the connect is in progress and closed otherwise.
  lemma AttemptResult(s: Conn, step: Step)
    requires Enabled(s, step)
    ensures Attempts(s, step) ==> AttemptMade(s, Next(s, step), step.outcome)
    ensures !Attempts(s, step) ==> Next(s, step).sockets.created == s.sockets.created
  {
    hide StartInLoop, HandleError, HandleWrite, StopInLoop, ResetChannel;
    match step
    case Start(_, outcome) => StartInLoopMakes(s.(connect := true), outcome);
    case Restart(outcome) =>
      StartInLoopMakes(
        s.(phase := Disconnected, retryDelayMs := INIT_RETRY_DELAY_MS, delays := [], connect := true), outcome);
    case Event(err, out, result) =>
      EventsMakeNothing(s, result);
      EventsMakeNothing(HandleError(s), result);
    case TimerFires(i, outcome) =>
      StartInLoopMakes(s.(loop := s.loop.(timers := s.loop.timers[..i] + s.loop.timers[i + 1..])), outcome);
    case RunTask(outcome) =>
      StartInLoopMakes(Dequeued(s), outcome);
      TasksMakeNothing(Dequeued(s));
    case _ =>
  }

  // The steps after which the connector tries again later.
  predicate Retries(s: Conn, step: Step) {
    match step
    case Start(inLoop, outcome) => inLoop && outcome.Transient?
    case Restart(outcome) => outcome.Transient?
    case TimerFires(_, outcome) => s.connect && outcome.Transient?
    case Event(err, out, result) => s.connect && (err || (out && !result.Established?))
    case RunTask(outcome) =>
      && s.connect && s.loop.snapshot != []
      && (match s.loop.snapshot[0]
          case StartTask => outcome.Transient?
          case StopTask => s.phase.Connecting? && s.channel.Some?
          case ResetTask => false)
    case _ => false
  }

  // From s to t one retry was put off by the next delay, or none.
  predicate Scheduled(s: Conn, t: Conn, retries: bool) {
    if retries then
      t.delays == s.delays + [s.retryDelayMs] && t.loop.timers == s.loop.timers + [s.loop.clock + s.retryDelayMs]
    else t.delays == s.delays && t.loop.timers == s.loop.timers
  }

  lemma StartInLoopSchedules(s: Conn, outcome: Outcome)
    ensures Scheduled(s, StartInLoop(s, outcome), s.connect && outcome.Transient?)
  {
  }

  lemma DispatchSchedules(s: Conn, err: bool, out: bool, result: WriteResult)
    requires s.phase.Connecting? && s.channel.Some?
    ensures Scheduled(s, Dispatch(s, err, out, result), s.connect && (err || (out && !result.Established?)))
  {
  }

  lemma TasksSchedule(s: Conn)
    ensures Scheduled(s, StopInLoop(s), s.connect && s.phase.Connecting? && s.channel.Some?)
    ensures Scheduled(s, ResetChannel(s), false)
  {
  }

  // What a step starts from: a restart forgets the delays so far, and a timer
  // that fires is gone.
  function Before(s: Conn, step: Step): Conn
    requires Enabled(s, step)
  {
    match step
    case Restart(_) => s.(delays := [], retryDelayMs := INIT_RETRY_DELAY_MS)
    case TimerFires(i, _) => s.(loop := s.loop.(timers := s.loop.timers[..i] + s.loop.timers[i + 1..]))
    case _ => s
  }

  lemma StepSchedules(s: Conn, step: Step)
    requires Enabled(s, step)
    ensures Scheduled(Before(s, step), Next(s, step), Retries(s, step))
  {
    hide StartInLoop, Dispatch, StopInLoop, ResetChannel;
    match step
    case Start(_, outcome) => StartInLoopSchedules(s.(connect := true), outcome);
    case Restart(outcome) =>
      StartInLoopSchedules(
        s.(phase := Disconnected, retryDelayMs := INIT_RETRY_DELAY_MS, delays := [], connect := true), outcome);
    case Event(err, out, result) => DispatchSchedules(s, err, out, result);
    case TimerFires(i, outcome) => StartInLoopSchedules(Before(s, step), outcome);
    case RunTask(outcome) =>
      StartInLoopSchedules(Dequeued(s), outcome);
      TasksSchedule(Dequeued(s));
    case _ =>
  }

  // Exactly the steps that fail transiently, or end an attempt that is still
  // wanted, set one timer, for 500 * 2^k milliseconds after the k-th such failure
  // since the start or restart, at most 30 seconds; a fatal error sets none.
  lemma RetriesIff(s: Conn, step: Step)
    requires DelayInv(s) && Enabled(s, step)
    ensures var b, t := Before(s, step), Next(s, step);
      var delay := Min(500 * Pow2(|b.delays|), 30000);
      if Retries(s, step) then
        t.delays == b.delays + [delay] && t.loop.timers == b.loop.timers + [s.loop.clock + delay]
      else t.delays == b.delays && t.loop.timers == b.loop.timers
  {
    StepSchedules(s, step);
    assert Pow2(0) == 1;
    hide Next, Enabled, Retries, Pow2;
    assert Before(s, step).retryDelayMs == Backoff(|Before(s, step).delays|);
  }

  // After a restart the delays start over, in every run.
  lemma RestartStartsOver(s: Conn, outcome: Outcome, steps: seq<Step>)
    requires Enabled(s, Restart(outcome)) && IsRun(Next(s, Restart(outcome)), steps)
    ensures var t := Next(s, Restart(outcome));
      t.connect && t.delays == (if outcome.Transient? then [500] else [])
    ensures var t := Exec(Next(s, Restart(outcome)), steps);
      forall k :: 0 <= k < |t.delays| ==> t.delays[k] == Min(500 * Pow2(k), 30000)
  {
    var t := s.(phase := Disconnected, retryDelayMs := INIT_RETRY_DELAY_MS, delays := [], connect := true);
    StartInLoopSchedules(t, outcome);
    RestartDelays(t);
    StartInLoopDelays(t, outcome);
    hide IsRun, Exec, Pow2;
    RunKeepsDelays(Next(s, Restart(outcome)), steps);
  }

  // A dispatch without error or write event does nothing. Any other ends the
  // attempt: the channel waits for its reset, and the socket is handed over if
  // it is established and wanted, and closed if not.
  lemma DispatchEndsAttempt(s: Conn, err: bool, out: bool, result: WriteResult)
    requires Owner(s) && Enabled(s, Event(err, out, result))
    ensures var t, sock := Next(s, Event(err, out, result)), s.channel.value.sock;
      if !err && !out then t == s
      else
        && t.channel == Some(Channel(sock, false)) && t.sockets.owned.None?
        && Queued(t.loop, ResetTask) == Queued(s.loop, ResetTask) + 1
        && (t.phase.Connected? <==> !err && result.Established?) && (t.phase.Disconnected? <==> !t.phase.Connected?)
        && t.sockets.handed == s.sockets.handed + (if t.phase.Connected? && s.connect then multiset{sock} else multiset{})
        && t.sockets.closed == s.sockets.closed + (if t.phase.Connected? && s.connect then multiset{} else multiset{sock})
  {
    QueueKeeps(s.loop, ResetTask, ResetTask);
    hide Linear, Count;
  }

  // start() and stop() leave their wish and, but for a start in the loop's own
  // thread, one functor.
  lemma WishesAreQueued(s: Conn, outcome: Outcome)
    ensures var t := Next(s, Stop); !t.connect && t.loop == Queue(s.loop, StopTask) && t.phase == s.phase
    ensures var t := Next(s, Start(false, outcome)); t.connect && t.loop == Queue(s.loop, StartTask) && t.phase == s.phase
    ensures Next(s, Start(true, outcome)).connect
  {
    StartInLoopKeepsWish(s.(connect := true), outcome);
    hide StartInLoop;
  }

  lemma StartInLoopKeepsWish(s: Conn, outcome: Outcome)
    ensures StartInLoop(s, outcome).connect == s.connect
  {
  }

  // --------------------------------------------------- stop ends an attempt

  // The functor of stop() finds an attempt under way: its socket is closed, and
  // its channel waits for the reset.
  lemma StopEndsAttempt(s: Conn, outcome: Outcome)
    requires Owner(s) && Enabled(s, RunTask(outcome)) && s.loop.snapshot[0].StopTask?
    requires s.phase.Connecting? && s.channel.Some?
    ensures var t, sock := Next(s, RunTask(outcome)), s.channel.value.sock;
      && t.phase.Disconnected? && t.channel == Some(Channel(sock, false)) && t.sockets.owned.None?
      && t.sockets.closed == s.sockets.closed + multiset{sock}
      && t.sockets.handed == s.sockets.handed && t.sockets.lost == s.sockets.lost
      && Queued(t.loop, ResetTask) == Queued(s.loop, ResetTask) + 1
  {
    DequeuedTasks(s);
    QueueKeeps(Dequeued(s).loop, ResetTask, ResetTask);
    hide Linear, Queued, ResetFirst;
  }

  // Some functor of stop() runs.
  predicate RunsStop(s: Conn, step: Step) {
    step.RunTask? && s.loop.snapshot != [] && s.loop.snapshot[0].StopTask?
  }

  predicate StopRan(s: Conn, steps: seq<Step>)
    requires IsRun(s, steps)
    decreases steps
  {
    steps != [] && (RunsStop(s, steps[0]) || StopRan(Next(s, steps[0]), steps[1..]))
  }

  // Stopped, and an attempt still under way has a functor of stop() coming.
  predicate Stopping(s: Conn) {
    && !s.connect
    && (s.phase.Connecting? && s.sockets.lost == multiset{} ==> Registered(s) && Queued(s.loop, StopTask) > 0)
    && (!s.loop.inFunctors ==> s.loop.snapshot == [])
  }

  lemma UnwantedHandlers(s: Conn, result: WriteResult, outcome: Outcome)
    requires !s.connect
    ensures !s.phase.Connecting? ==> !HandleError(s).phase.Connecting? && !HandleWrite(s, result).phase.Connecting?
    ensures !s.phase.Connecting? ==> !StopInLoop(s).phase.Connecting? && !ResetChannel(s).phase.Connecting?
    ensures StartInLoop(s, outcome) == s.(fault := StartInLoop(s, outcome).fault, overlap := StartInLoop(s, outcome).overlap)
    ensures Registered(s) ==> !HandleError(s).phase.Connecting? && !StopInLoop(s).phase.Connecting?
    ensures Registered(s) ==> !HandleWrite(s, result).phase.Connecting?
  {
  }

  // Nothing makes a connector connecting that is not wanted.
  lemma UnwantedStep(s: Conn, step: Step)
    requires Enabled(s, step) && !s.connect && !step.Start? && !step.Restart?
    ensures !Next(s, step).connect
    ensures !s.phase.Connecting? ==> !Next(s, step).phase.Connecting?
  {
    StoppedStep(s, step);
    hide StartInLoop, HandleError, HandleWrite, StopInLoop, ResetChannel;
    match step
    case Event(err, out, result) =>
    case TimerFires(i, outcome) => UnwantedHandlers(Before(s, step), SocketError, outcome);
    case RunTask(outcome) => UnwantedHandlers(Dequeued(s), SocketError, outcome);
    case _ =>
  }

  lemma DispatchStops(s: Conn, err: bool, out: bool, result: WriteResult)
    requires Stopping(s) && Enabled(s, Event(err, out, result))
    ensures Stopping(Dispatch(s, err, out, result))
  {
    hide Queued;
  }

  lemma TaskStops(s: Conn, outcome: Outcome)
    requires Stopping(s) && Enabled(s, RunTask(outcome))
    ensures Stopping(Next(s, RunTask(outcome)))
    ensures RunsStop(s, RunTask(outcome)) && s.sockets.lost == multiset{} ==> !Next(s, RunTask(outcome)).phase.Connecting?
  {
    DequeuedTasks(s);
    QueueKeeps(Dequeued(s).loop, ResetTask, StopTask);
    StepLoses(s, RunTask(outcome));
    UnwantedHandlers(Dequeued(s), SocketError, outcome);
    hide Queued, ResetFirst, StartInLoop;
  }

  lemma StoppingStays(s: Conn, step: Step)
    requires Stopping(s) && Enabled(s, step) && !step.Start? && !step.Restart?
    ensures Stopping(Next(s, step))
    ensures RunsStop(s, step) && s.sockets.lost == multiset{} ==> !Next(s, step).phase.Connecting?
  {
    hide Dispatch, StartInLoop;
    match step
    case Stop => QueueKeeps(s.loop, StopTask, StopTask);
    case Event(err, out, result) => DispatchStops(s, err, out, result);
    case TimerFires(i, outcome) => UnwantedHandlers(Before(s, step), SocketError, outcome);
    case RunTask(outcome) => TaskStops(s, outcome);
    case BeginFunctors => assert Queued(Next(s, step).loop, StopTask) == Queued(s.loop, StopTask);
    case EndFunctors =>
    case Elapse(_) =>
  }

  lemma {:induction false} RunUnwanted(s: Conn, steps: seq<Step>)
    requires IsRun(s, steps) && !s.connect && !s.phase.Connecting? && NoNewStart(steps)
    ensures !Exec(s, steps).phase.Connecting?
    decreases steps
  {
    if steps != [] {
      hide Next, Enabled;
      assert !steps[0].Start? && !steps[0].Restart?;
      UnwantedStep(s, steps[0]);
      assert forall i :: 0 <= i < |steps| - 1 ==> steps[1..][i] == steps[i + 1];
      RunUnwanted(Next(s, steps[0]), steps[1..]);
    }
  }

  lemma {:induction false} StoppingEnds(s: Conn, steps: seq<Step>)
    requires Stopping(s) && IsRun(s, steps) && NoNewStart(steps) && Exec(s, steps).sockets.lost == multiset{}
    ensures var t := Exec(s, steps);
      && (StopRan(s, steps) || Queued(t.loop, StopTask) == 0 ==> !t.phase.Connecting?)
      && (t.phase.Connecting? ==> Registered(t))
    decreases steps
  {
    if steps != [] {
      hide Next, Enabled, Queued, Registered;
      var n, rest := Next(s, steps[0]), steps[1..];
      assert !steps[0].Start? && !steps[0].Restart?;
      assert forall i :: 0 <= i < |rest| ==> rest[i] == steps[i + 1];
      StoppingStays(s, steps[0]);
      UnwantedStep(s, steps[0]);
      StepLoses(s, steps[0]);
      LostIffDropped(n, rest);
      hide Stopping, RunsStop;
      StoppingEnds(n, rest);
      if !n.phase.Connecting? {
        RunUnwanted(n, rest);
      }
    }
  }

  // Connecting means a registered channel, as long as no socket was lost.
  predicate Anchored(s: Conn) {
    && (s.phase.Connecting? && s.sockets.lost == multiset{} ==> Registered(s))
    && (!s.loop.inFunctors ==> s.loop.snapshot == [])
  }

  lemma HandlersAnchor(s: Conn, result: WriteResult, outcome: Outcome)
    requires s.phase.Connecting? ==> Registered(s)
    ensures HandleError(s).phase.Connecting? ==> Registered(HandleError(s))
    ensures HandleWrite(s, result).phase.Connecting? ==> Registered(HandleWrite(s, result))
    ensures StopInLoop(s).phase.Connecting? ==> Registered(StopInLoop(s))
    ensures StartInLoop(s, outcome).phase.Connecting? ==> Registered(StartInLoop(s, outcome))
  {
  }

  lemma TaskAnchors(s: Conn, outcome: Outcome)
    requires (s.phase.Connecting? ==> Registered(s)) && Enabled(s, RunTask(outcome)) && s.sockets.lost == multiset{}
    ensures var t := Next(s, RunTask(outcome)); t.phase.Connecting? && t.sockets.lost == multiset{} ==> Registered(t)
  {
    StepLoses(s, RunTask(outcome));
    HandlersAnchor(Dequeued(s), SocketError, outcome);
    hide StartInLoop, StopInLoop;
  }

  lemma StepAnchors(s: Conn, step: Step)
    requires Anchored(s) && Enabled(s, step)
    ensures Anchored(Next(s, step))
  {
    StepKeepsRounds(s, step);
    StepLoses(s, step);
    hide StartInLoop, HandleError, HandleWrite, StopInLoop, DropsLive;
    if s.sockets.lost == multiset{} {
      match step
      case Start(_, outcome) => HandlersAnchor(s.(connect := true), SocketError, outcome);
      case Restart(outcome) =>
        HandlersAnchor(
          s.(phase := Disconnected, retryDelayMs := INIT_RETRY_DELAY_MS, delays := [], connect := true),
          SocketError, outcome);
      case Event(err, out, result) =>
        HandlersAnchor(s, result, InProgress);
        HandlersAnchor(HandleError(s), result, InProgress);
      case TimerFires(i, outcome) => HandlersAnchor(Before(s, step), SocketError, outcome);
      case RunTask(outcome) => TaskAnchors(s, outcome);
      case _ =>
    }
  }

  lemma {:induction false} RunAnchors(s: Conn, steps: seq<Step>)
    requires Anchored(s) && IsRun(s, steps)
    ensures Anchored(Exec(s, steps))
    decreases steps
  {
    if steps != [] {
      hide Next, Enabled, Anchored;
      StepAnchors(s, steps[0]);
      RunAnchors(Next(s, steps[0]), steps[1..]);
    }
  }

  // After stop() at any point of any run, until somebody starts it again: once a
  // functor of stop() has run, or none is queued any more, the connector is not
  // connecting, as long as no socket was lost.
  lemma StopEndsAttempts(before: seq<Step>, steps: seq<Step>)
    requires IsRun(Init(), before)
    requires var n := Next(Exec(Init(), before), Stop);
      IsRun(n, steps) && NoNewStart(steps) && Exec(n, steps).sockets.lost == multiset{}
    ensures var n := Next(Exec(Init(), before), Stop); var t := Exec(n, steps);
      StopRan(n, steps) || Queued(t.loop, StopTask) == 0 ==> !t.phase.Connecting?
  {
    assert Anchored(Init());
    RunAnchors(Init(), before);
    var s := Exec(Init(), before);
    QueueKeeps(s.loop, StopTask, StopTask);
    assert Stopping(Next(s, Stop));
    hide IsRun, Exec, Next, StopRan, Queued, Stopping;
    StoppingEnds(Next(s, Stop), steps);
  }

  // A connector that is wanted and not connected has a registered channel, or
  // its next attempt on the way.
  predicate Trying(s: Conn) {
    s.connect && !s.phase.Connected? ==> Registered(s) || |s.loop.timers| + Queued(s.loop, StartTask) > 0
  }

  predicate GivesUp(step: Step) {
    match step
    case Start(_, outcome) => outcome.Fatal?
    case Restart(outcome) => outcome.Fatal?
    case TimerFires(_, outcome) => outcome.Fatal?
    case RunTask(outcome) => outcome.Fatal?
    case _ => false
  }

  // As long as no socket was lost it is trying, and connecting means a
  // registered channel.
  predicate Eager(s: Conn) {
    && (s.sockets.lost == multiset{} ==> Trying(s) && (s.phase.Connecting? ==> Registered(s)))
    && (!s.loop.inFunctors ==> s.loop.snapshot == [])
  }

  lemma DispatchKeepsTrying(s: Conn, err: bool, out: bool, result: WriteResult)
    requires s.phase.Connecting? && Registered(s)
    ensures var t := Dispatch(s, err, out, result); Trying(t) && (t.phase.Connecting? ==> Registered(t))
  {
    hide Queued;
  }

  lemma StartInLoopTries(s: Conn, outcome: Outcome)
    requires !outcome.Fatal? && (s.phase.Connecting? ==> Registered(s))
    ensures var t := StartInLoop(s, outcome); Trying(t) || !s.connect
    ensures var t := StartInLoop(s, outcome); t.phase.Connecting? ==> Registered(t)
    ensures StartInLoop(s, outcome).connect == s.connect
  {
    hide Queued;
  }

  lemma RunTaskKeepsTrying(s: Conn, outcome: Outcome)
    requires Eager(s) && Enabled(s, RunTask(outcome)) && !outcome.Fatal?
    ensures var t := Next(s, RunTask(outcome));
      t.sockets.lost == multiset{} ==> Trying(t) && (t.phase.Connecting? ==> Registered(t))
  {
    var t := Dequeued(s);
    DequeuedTasks(s);
    StepLoses(s, RunTask(outcome));
    QueueKeeps(t.loop, ResetTask, StartTask);
    hide ResetFirst, Queued;
    if s.loop.snapshot[0].StartTask? && s.sockets.lost == multiset{} {
      StartInLoopTries(t, outcome);
    }
  }

  lemma StepKeepsTrying(s: Conn, step: Step)
    requires Eager(s) && Enabled(s, step) && !GivesUp(step) && s.sockets.lost == multiset{}
    ensures var t := Next(s, step);
      t.sockets.lost == multiset{} ==> Trying(t) && (t.phase.Connecting? ==> Registered(t))
  {
    match step
    case Start(inLoop, outcome) =>
      QueueKeeps(s.loop, StartTask, StartTask);
      StartInLoopTries(s.(connect := true), outcome);
    case Stop => QueueKeeps(s.loop, StopTask, StartTask);
    case Restart(outcome) =>
      StartInLoopTries(s.(phase := Disconnected, retryDelayMs := INIT_RETRY_DELAY_MS, delays := [], connect := true), outcome);
    case Event(err, out, result) => DispatchKeepsTrying(s, err, out, result);
    case TimerFires(i, outcome) =>
      StartInLoopTries(s.(loop := s.loop.(timers := s.loop.timers[..i] + s.loop.timers[i + 1..])), outcome);
    case BeginFunctors => assert Queued(Next(s, step).loop, StartTask) == Queued(s.loop, StartTask);
    case RunTask(outcome) => RunTaskKeepsTrying(s, outcome);
    case EndFunctors =>
    case Elapse(_) =>
  }

  predicate SameRound(s: Conn, t: Conn) {
    t.loop.snapshot == s.loop.snapshot && t.loop.inFunctors == s.loop.inFunctors
  }

  lemma StartInLoopStaysInRound(s: Conn, outcome: Outcome)
    ensures SameRound(s, StartInLoop(s, outcome))
  {
  }

  lemma HandlersStayInRound(s: Conn, result: WriteResult)
    ensures SameRound(s, HandleError(s)) && SameRound(s, HandleWrite(s, result)) && SameRound(s, StopInLoop(s))
    ensures SameRound(s, ResetChannel(s))
  {
  }

  lemma StepKeepsRounds(s: Conn, step: Step)
    requires Enabled(s, step) && (!s.loop.inFunctors ==> s.loop.snapshot == [])
    ensures !Next(s, step).loop.inFunctors ==> Next(s, step).loop.snapshot == []
  {
    hide StartInLoop, HandleError, HandleWrite, StopInLoop, ResetChannel;
    match step
    case Start(_, outcome) => StartInLoopStaysInRound(s.(connect := true), outcome);
    case Restart(outcome) =>
      StartInLoopStaysInRound(
        s.(phase := Disconnected, retryDelayMs := INIT_RETRY_DELAY_MS, delays := [], connect := true), outcome);
    case Event(err, out, result) =>
      HandlersStayInRound(s, result);
      HandlersStayInRound(HandleError(s), result);
    case TimerFires(i, outcome) =>
      StartInLoopStaysInRound(s.(loop := s.loop.(timers := s.loop.timers[..i] + s.loop.timers[i + 1..])), outcome);
    case RunTask(outcome) =>
      StartInLoopStaysInRound(Dequeued(s), outcome);
      HandlersStayInRound(Dequeued(s), SocketError);
    case _ =>
  }

  lemma StepKeepsEager(s: Conn, step: Step)
    requires Eager(s) && Enabled(s, step) && !GivesUp(step)
    ensures Eager(Next(s, step))
  {
    StepLoses(s, step);
    StepKeepsRounds(s, step);
    if s.sockets.lost == multiset{} {
      StepKeepsTrying(s, step);
    }
    hide Trying, Queued, Next, Enabled;
  }

  // In every run without a fatal connect error, whatever fails and however
  // stop() and restart() come in between, a connector that is wanted and has
  // lost no socket is connected, has a registered channel, or has its next
  // attempt on the way.
  lemma {:induction false} NeverGivesUp(s: Conn, steps: seq<Step>)
    requires Eager(s) && IsRun(s, steps)
    requires forall i :: 0 <= i < |steps| ==> !GivesUp(steps[i])
    ensures Eager(Exec(s, steps))
    decreases steps
  {
    if steps != [] {
      hide Next, Eager, GivesUp;
      StepKeepsEager(s, steps[0]);
      assert forall i :: 0 <= i < |steps| - 1 ==> steps[1..][i] == steps[i + 1];
      NeverGivesUp(Next(s, steps[0]), steps[1..]);
    }
  }

  // ------------------------------------------------------------- the class

  class Connector {
    var phase: Phase
    var connect: bool
    var channel: Option<Channel>
    var retryDelayMs: nat
    // environment: the loop, the operating system's sockets, failed asserts
    var loop: Loop
    var sockets: Ledger
    var fault: bool
    ghost var overlap: bool
    ghost var resetAt: int
    ghost var delays: seq<nat>

    ghost function State(): Conn
      reads this
    {
      Conn(phase, connect, channel, retryDelayMs, loop, sockets, resetAt, delays, overlap, fault)
    }

    constructor ()
      ensures State() == Init()
    {
      phase, connect, channel, retryDelayMs := Disconnected, false, None, INIT_RETRY_DELAY_MS;
      loop, sockets, fault := Loop([], [], false, [], 0), Ledger(0, None, multiset{}, multiset{}, multiset{}), false;
      overlap, resetAt, delays := false, 0, [];
    }

    method DoRetry(sock: Socket)
      modifies this
      ensures State() == Retry(old(State()), sock)
    {
      sockets := Close(sockets, sock);
      phase := Disconnected;
      if connect {
        loop := loop.(timers := loop.timers + [loop.clock + retryDelayMs]);
        delays := delays + [retryDelayMs];
        retryDelayMs := Min(retryDelayMs * 2, MAX_RETRY_DELAY_MS);
      }
    }

    method DoConnecting(sock: Socket)
      modifies this
      ensures State() == ConnectingOn(old(State()), sock)
    {
      phase := Connecting;
      fault := fault || channel.Some?;
      channel := Some(Channel(sock, true));
    }

    method DoConnect(outcome: Outcome)
      modifies this
      ensures State() == Connect(old(State()), outcome)
    {
      var sock := sockets.created;
      sockets := Create(sockets);
      match outcome
      case InProgress => DoConnecting(sock);
      case Transient => DoRetry(sock);
      case Fatal => sockets := Close(sockets, sock);
    }

    method DoStartInLoop(outcome: Outcome)
      modifies this
      ensures State() == StartInLoop(old(State()), outcome)
    {
      fault := fault || !phase.Disconnected?;
      overlap := overlap || !phase.Disconnected?;
      if connect {
        DoConnect(outcome);
      }
    }

    method DoRemoveAndReset() returns (sock: Socket)
      requires channel.Some?
      modifies this
      ensures State() == RemoveAndReset(old(State())) && sock == old(channel).value.sock
    {
      sock := channel.value.sock;
      channel := Some(Channel(sock, false));
      loop := Queue(loop, ResetTask);
      resetAt := loop.clock;
    }

    method DoHandleWrite(result: WriteResult)
      modifies this
      ensures State() == HandleWrite(old(State()), result)
    {
      if phase.Connecting? && channel.None? {
        fault := true;
      } else if phase.Connecting? {
        var sock := DoRemoveAndReset();
        if result.SocketError? {
          DoRetry(sock);
        } else if result.SelfConnect? {
          DoRetry(sock);
        } else {
          phase := Connected;
          if connect {
            sockets := Hand(sockets, sock);
          } else {
            sockets := Close(sockets, sock);
          }
        }
      } else {
        fault := fault || !phase.Disconnected?;
      }
    }

    method DoHandleError()
      modifies this
      ensures State() == HandleError(old(State()))
    {
      if phase.Connecting? && channel.None? {
        fault := true;
      } else if phase.Connecting? {
        var sock := DoRemoveAndReset();
        DoRetry(sock);
      }
    }

    method DoStopInLoop()
      modifies this
      ensures State() == StopInLoop(old(State()))
      ensures old(phase).Connecting? && old(channel).Some? ==>
                && phase.Disconnected? && channel == Some(Channel(old(channel).value.sock, false)) && sockets.owned.None?
                && sockets.closed == old(sockets.closed) + multiset{old(channel).value.sock}
    {
      if phase.Connecting? && channel.None? {
        fault := true;
      } else if phase.Connecting? {
        phase := Disconnected;
        var sock := DoRemoveAndReset();
        DoRetry(sock);
      }
    }

    method DoResetChannel()
      modifies this
      ensures State() == ResetChannel(old(State()))
    {
      if channel.Some? && channel.value.registered {
        fault := true;
        sockets := Lose(sockets, channel.value.sock);
      }
      channel := None;
    }

    method DoRestart(outcome: Outcome)
      modifies this
      ensures State() == RestartNow(old(State()), outcome)
    {
      phase := Disconnected;
      retryDelayMs := INIT_RETRY_DELAY_MS;
      delays := [];
      connect := true;
      DoStartInLoop(outcome);
    }

    // handleEventWithGuard for this channel.
    method DoDispatch(err: bool, out: bool, result: WriteResult)
      requires phase.Connecting? && channel.Some?
      modifies this
      ensures State() == Dispatch(old(State()), err, out, result)
    {
      if err {
        DoHandleError();
      }
      if out {
        DoHandleWrite(result);
      }
    }
  }
}
