module Phases {
  // In the order in which a connection goes through them.
  datatype Phase = Connecting | Connected | Disconnecting | Disconnected {
    function Rank(): nat {
      match this
      case Connecting => 0
      case Connected => 1
      case Disconnecting => 2
      case Disconnected => 3
    }
  }
}

// The send, shutdown and close path of net/tcpconnection.cpp over the output
// buffer.
module Connections {
  import opened Endian
  import opened Phases
  import opened Sequences
  import Buffers

  // What ::write reports: bytes taken, EAGAIN, EPIPE or ECONNRESET, or any
  // other error number.
  datatype Outcome = Wrote(n: nat) | WouldBlock | Broken | OtherError

  // Functors that the connection has queued in its loop.
  datatype Task =
    | SendTask(message: seq<Byte>)
    | ShutdownTask
    | ForceCloseTask
    | CompleteNotice
    | HighWaterNotice(length: nat)

  // What became of a message that reached sendInLoop.
  datatype Verdict = Verdict(message: seq<Byte>, accepted: bool)

  // The moment of a shutdownWrite.
  datatype Shut = Shut(unsent: nat, closed: bool, sentSoFar: nat)

  datatype Past = Past(
    log: seq<Verdict>,          // verdicts in sendInLoop order
    sent: seq<Byte>,            // bytes the kernel has taken
    shuts: seq<Shut>,           // every shutdownWrite
    asked: bool,                // shutdownInLoop ran on a live connection
    completes: seq<nat>,        // unsent bytes at each write-complete notice
    highs: nat)                 // high-water notices queued

  datatype Conn = Conn(
    phase: Phase,
    writing: bool,
    buffer: seq<Byte>,          // outputBuffer_
    mark: nat,                  // highWaterMark_
    wantHigh: bool,             // highWaterMarkCallback_ is set
    wantComplete: bool,         // writeCompleteCallback_ is set
    tasks: seq<Task>,
    past: Past)

  // ------------------------------------------------------------ operations

  function AddTask(c: Conn, task: Task): Conn {
    c.(tasks := c.tasks + [task])
  }

  function NoteComplete(c: Conn): Conn {
    if c.wantComplete then
      AddTask(c, CompleteNotice).(past := c.past.(completes := c.past.completes + [|c.buffer|]))
    else c
  }

  predicate CrossesMark(c: Conn, more: nat) {
    |c.buffer| + more >= c.mark && |c.buffer| < c.mark && c.wantHigh
  }

  function NoteHigh(c: Conn, more: nat): Conn {
    if CrossesMark(c, more) then
      AddTask(c, HighWaterNotice(|c.buffer| + more)).(past := c.past.(highs := c.past.highs + 1))
    else c
  }

  function Keep(c: Conn, rest: seq<Byte>): Conn {
    NoteHigh(c, |rest|).(buffer := c.buffer + rest, writing := true)
  }

  function Judge(c: Conn, message: seq<Byte>, accepted: bool): Conn {
    c.(past := c.past.(log := c.past.log + [Verdict(message, accepted)]))
  }

  function Take(c: Conn, bytes: seq<Byte>): Conn {
    c.(past := c.past.(sent := c.past.sent + bytes))
  }

  predicate WritesDirectly(c: Conn) {
    !c.writing && c.buffer == []
  }

  predicate TakesAtMost(o: Outcome, len: nat) {
    o.Wrote? ==> o.n <= len
  }

  function SendInLoop(c: Conn, message: seq<Byte>, o: Outcome): (r: Conn)
    requires TakesAtMost(o, |message|)
    ensures r.phase == c.phase
  {
    if c.phase.Disconnected? then Judge(c, message, false)
    else if !WritesDirectly(c) then
      Judge(if message == [] then c else Keep(c, message), message, true)
    else if o.Wrote? then
      var t := Take(c, message[..o.n]);
      Judge(if o.n == |message| then NoteComplete(t) else Keep(t, message[o.n..]), message, true)
    else if o.Broken? then Judge(c, message, false)
    else Judge(if message == [] then c else Keep(c, message), message, true)
  }

  function ShutdownInLoop(c: Conn): Conn {
    var t := c.(past := c.past.(asked := c.past.asked || !c.phase.Disconnected?));
    if c.writing then t
    else t.(past := t.past.(shuts := c.past.shuts + [Shut(|c.buffer|, c.phase.Disconnected?, |c.past.sent|)]))
  }

  function HandleWrite(c: Conn, o: Outcome): (r: Conn)
    requires TakesAtMost(o, |c.buffer|)
    ensures r.phase == c.phase
  {
    if !c.writing || !o.Wrote? || o.n == 0 then c
    else
      var t := Take(c, c.buffer[..o.n]).(buffer := c.buffer[o.n..]);
      if o.n < |c.buffer| then t
      else
        var u := NoteComplete(t.(writing := false));
        if c.phase.Disconnecting? then ShutdownInLoop(u) else u
  }

  function HandleClose(c: Conn): Conn {
    c.(phase := Disconnected, writing := false)
  }

  function RunTask(c: Conn, o: Outcome): Conn
    requires c.tasks != [] && (c.tasks[0].SendTask? ==> TakesAtMost(o, |c.tasks[0].message|))
  {
    var t := c.(tasks := c.tasks[1..]);
    match c.tasks[0]
    case SendTask(message) => SendInLoop(t, message, o)
    case ShutdownTask => ShutdownInLoop(t)
    case ForceCloseTask => if c.phase.Connected? || c.phase.Disconnecting? then HandleClose(t) else t
    case CompleteNotice => t
    case HighWaterNotice(_) => t
  }

  // ------------------------------------------------------------------ runs

  datatype Step =
    | Establish
    | Send(inLoop: bool, message: seq<Byte>, outcome: Outcome)
    | Shutdown(inLoop: bool)
    | ForceClose
    | ForceCloseLater               // forceCloseWithDelay; its timer makes a ForceClose
    | Run(outcome: Outcome)
    | Writable(outcome: Outcome)
    | PeerClosed
    | Destroy

  function Init(mark: nat, wantHigh: bool, wantComplete: bool): Conn {
    Conn(Connecting, false, [], mark, wantHigh, wantComplete, [], Past([], [], [], false, [], 0))
  }

  // The kernel takes no byte after the write side was shut down.
  predicate Possible(c: Conn, o: Outcome, len: nat) {
    TakesAtMost(o, len) && (c.past.shuts != [] ==> o.Broken?)
  }

  predicate Enabled(c: Conn, step: Step) {
    match step
    case Establish => c.phase.Connecting?
    case Send(_, message, o) => Possible(c, o, |message|)
    case Run(o) => c.tasks != [] && (c.tasks[0].SendTask? ==> Possible(c, o, |c.tasks[0].message|))
    case Writable(o) => Possible(c, o, |c.buffer|)
    case PeerClosed => c.phase.Connected? || c.phase.Disconnecting?
    case _ => true
  }

  function Next(c: Conn, step: Step): Conn
    requires Enabled(c, step)
  {
    match step
    case Establish => c.(phase := Connected)
    case Send(inLoop, message, o) =>
      if !c.phase.Connected? then c
      else if inLoop then SendInLoop(c, message, o)
      else AddTask(c, SendTask(message))
    case Shutdown(inLoop) =>
      if !c.phase.Connected? then c
      else if inLoop then ShutdownInLoop(c.(phase := Disconnecting))
      else AddTask(c.(phase := Disconnecting), ShutdownTask)
    case ForceClose =>
      if c.phase.Connected? || c.phase.Disconnecting? then AddTask(c.(phase := Disconnecting), ForceCloseTask) else c
    case ForceCloseLater =>
      if c.phase.Connected? || c.phase.Disconnecting? then c.(phase := Disconnecting) else c
    case Run(o) => RunTask(c, o)
    case Writable(o) => HandleWrite(c, o)
    case PeerClosed => HandleClose(c)
    case Destroy => if c.phase.Connected? then HandleClose(c) else c
  }

  predicate IsRun(c: Conn, steps: seq<Step>)
    decreases steps
  {
    steps == [] || (Enabled(c, steps[0]) && IsRun(Next(c, steps[0]), steps[1..]))
  }

  function Exec(c: Conn, steps: seq<Step>): Conn
    requires IsRun(c, steps)
    decreases steps
  {
    if steps == [] then c else Exec(Next(c, steps[0]), steps[1..])
  }

  // ------------------------------------------------------------- invariant

  // The accepted messages, whole and in order.
  function Accepted(log: seq<Verdict>): seq<Byte> {
    if log == [] then []
    else
      var last := log[|log| - 1];
      Accepted(log[..|log| - 1]) + if last.accepted then last.message else []
  }

  lemma AcceptedStep(log: seq<Verdict>, v: Verdict)
    ensures Accepted(log + [v]) == Accepted(log) + if v.accepted then v.message else []
  {
    assert (log + [v])[..|log|] == log;
  }

  ghost predicate Conserved(c: Conn) {
    Accepted(c.past.log) == c.past.sent + c.buffer
  }

  ghost predicate InterestFollowsBuffer(c: Conn) {
    if c.phase.Disconnected? then !c.writing else (c.writing <==> c.buffer != [])
  }

  // Half-close on a live connection waits for the buffer to drain, nothing is
  // sent after it, and once asked for it is done or still has bytes to wait for.
  ghost predicate ShutsAreClean(c: Conn) {
    && (forall i :: 0 <= i < |c.past.shuts| && !c.past.shuts[i].closed ==> c.past.shuts[i].unsent == 0)
    && (forall i :: 0 <= i < |c.past.shuts| ==> c.past.shuts[i].sentSoFar == |c.past.sent|)
    && (c.past.asked && !c.phase.Disconnected? ==> c.phase.Disconnecting? && (c.past.shuts != [] || c.buffer != []))
    && (c.past.shuts != [] && !c.phase.Disconnected? ==> c.buffer == [])
  }

  // While connected no half-close and no close has been asked for.
  ghost predicate TasksAreTimely(c: Conn) {
    && (forall i :: 0 <= i < |c.tasks| && (c.tasks[i].ShutdownTask? || c.tasks[i].ForceCloseTask?) ==> c.phase.Rank() >= 2)
    && (c.past.shuts != [] ==> c.phase.Rank() >= 2)
  }

  ghost predicate CompletesAreClean(c: Conn) {
    forall i :: 0 <= i < |c.past.completes| ==> c.past.completes[i] == 0
  }

  ghost predicate Tidy(c: Conn) {
    InterestFollowsBuffer(c) && ShutsAreClean(c) && TasksAreTimely(c) && CompletesAreClean(c)
  }

  ghost predicate Inv(c: Conn) {
    Conserved(c) && Tidy(c)
  }

  lemma DirectWriteResult(c: Conn, message: seq<Byte>, n: nat)
    requires n <= |message| && !c.phase.Disconnected? && WritesDirectly(c)
    ensures var t := SendInLoop(c, message, Wrote(n));
      && t.past.log == c.past.log + [Verdict(message, true)]
      && t.past.sent == c.past.sent + message[..n]
      && t.buffer == message[n..]
  {
    assert [] + message[n..] == message[n..];
  }

  lemma DirectWriteConserves(c: Conn, message: seq<Byte>, n: nat)
    requires Conserved(c) && n <= |message| && !c.phase.Disconnected? && WritesDirectly(c)
    ensures Conserved(SendInLoop(c, message, Wrote(n)))
  {
    DirectWriteResult(c, message, n);
    AcceptedStep(c.past.log, Verdict(message, true));
    Rejoin(c.past.sent, message, n);
    hide SendInLoop, Accepted;
  }

  lemma Rejoin(sent: seq<Byte>, message: seq<Byte>, n: nat)
    requires n <= |message|
    ensures sent + [] == sent && (sent + message[..n]) + message[n..] == sent + message
  {
    assert message == message[..n] + message[n..];
  }

  lemma IndirectResult(c: Conn, message: seq<Byte>, o: Outcome)
    requires c.phase.Disconnected? || !WritesDirectly(c) || !o.Wrote?
    requires TakesAtMost(o, |message|)
    ensures var t, accepted := SendInLoop(c, message, o), !c.phase.Disconnected? && !(WritesDirectly(c) && o.Broken?);
      && t.past.log == c.past.log + [Verdict(message, accepted)]
      && t.past.sent == c.past.sent
      && t.buffer == c.buffer + if accepted then message else []
  {
    assert c.buffer + [] == c.buffer;
  }

  lemma SendInLoopConserves(c: Conn, message: seq<Byte>, o: Outcome)
    requires Conserved(c) && TakesAtMost(o, |message|)
    ensures Conserved(SendInLoop(c, message, o))
  {
    if !c.phase.Disconnected? && WritesDirectly(c) && o.Wrote? {
      hide SendInLoop, Conserved, Accepted;
      DirectWriteConserves(c, message, o.n);
    } else {
      var accepted := !c.phase.Disconnected? && !(WritesDirectly(c) && o.Broken?);
      IndirectResult(c, message, o);
      hide Accepted, SendInLoop, WritesDirectly;
      AcceptedStep(c.past.log, Verdict(message, accepted));
      Append(c.past.sent, c.buffer, if accepted then message else []);
    }
  }

  lemma HandleWriteConserves(c: Conn, o: Outcome)
    requires Conserved(c) && TakesAtMost(o, |c.buffer|)
    ensures Conserved(HandleWrite(c, o))
  {
    if o.Wrote? {
      assert c.buffer == c.buffer[..o.n] + c.buffer[o.n..];
      assert c.past.sent + c.buffer == (c.past.sent + c.buffer[..o.n]) + c.buffer[o.n..];
    }
  }

  lemma StepConserves(c: Conn, step: Step)
    requires Conserved(c) && Enabled(c, step)
    ensures Conserved(Next(c, step))
  {
    hide SendInLoop, HandleWrite, Accepted;
    match step
    case Send(inLoop, message, o) => SendInLoopConserves(c, message, o);
    case Run(o) =>
      var t := c.(tasks := c.tasks[1..]);
      if c.tasks[0].SendTask? {
        SendInLoopConserves(t, c.tasks[0].message, o);
      }
    case Writable(o) => HandleWriteConserves(c, o);
    case _ =>
  }

  lemma SendInLoopKeeps(c: Conn, message: seq<Byte>, o: Outcome)
    requires Tidy(c)
    requires Possible(c, o, |message|)
    ensures var t := SendInLoop(c, message, o);
      Tidy(t)
  {
  }

  lemma ShutdownInLoopKeeps(c: Conn)
    requires Tidy(c)
    requires c.phase.Rank() >= 2
    ensures var t := ShutdownInLoop(c);
      Tidy(t)
  {
  }

  lemma HandleWriteKeeps(c: Conn, o: Outcome)
    requires Tidy(c)
    requires Possible(c, o, |c.buffer|)
    ensures var t := HandleWrite(c, o);
      Tidy(t)
  {
  }

  lemma RunTaskKeeps(c: Conn, o: Outcome)
    requires Tidy(c)
    requires Enabled(c, Run(o))
    ensures var t := RunTask(c, o);
      Tidy(t)
  {
    var t := c.(tasks := c.tasks[1..]);
    assert TasksAreTimely(t) by {
      assert forall i :: 0 <= i < |t.tasks| ==> t.tasks[i] == c.tasks[i + 1];
    }
    match c.tasks[0]
    case SendTask(message) => SendInLoopKeeps(t, message, o);
    case ShutdownTask => ShutdownInLoopKeeps(t);
    case _ =>
  }

  // Phases only move forward.
  lemma StepMovesForward(c: Conn, step: Step)
    requires Enabled(c, step)
    ensures c.phase.Rank() <= Next(c, step).phase.Rank()
  {
    hide SendInLoop, HandleWrite;
  }

  lemma PhaseStepKeeps(c: Conn, step: Step)
    requires Tidy(c) && Enabled(c, step) && !step.Send? && !step.Run? && !step.Writable? && !step.Shutdown?
    ensures Tidy(Next(c, step))
  {
  }

  lemma ShutdownKeeps(c: Conn, inLoop: bool)
    requires Tidy(c)
    ensures Tidy(Next(c, Shutdown(inLoop)))
  {
    if c.phase.Connected? && inLoop {
      ShutdownInLoopKeeps(c.(phase := Disconnecting));
    }
  }

  lemma StepKeepsInv(c: Conn, step: Step)
    requires Inv(c) && Enabled(c, step)
    ensures Inv(Next(c, step))
  {
    StepConserves(c, step);
    TidyStep(c, step);
    hide Conserved, Tidy, Next, Enabled;
  }

  lemma TidyStep(c: Conn, step: Step)
    requires Tidy(c) && Enabled(c, step)
    ensures Tidy(Next(c, step))
  {
    hide SendInLoop, HandleWrite, RunTask, ShutdownInLoop;
    match step
    case Send(_, message, o) => SendInLoopKeeps(c, message, o);
    case Shutdown(inLoop) => ShutdownKeeps(c, inLoop);
    case Run(o) => RunTaskKeeps(c, o);
    case Writable(o) => HandleWriteKeeps(c, o);
    case _ => PhaseStepKeeps(c, step);
  }

  lemma {:induction false} RunKeepsInv(c: Conn, steps: seq<Step>)
    requires Inv(c) && IsRun(c, steps)
    ensures Inv(Exec(c, steps))
    decreases steps
  {
    hide Inv, Next;
    if steps != [] {
      StepKeepsInv(c, steps[0]);
      RunKeepsInv(Next(c, steps[0]), steps[1..]);
    }
  }

  // ------------------------------------------------------------- theorems

  lemma InitInv(mark: nat, wantHigh: bool, wantComplete: bool)
    ensures Inv(Init(mark, wantHigh, wantComplete))
  {
  }

  // In every run the bytes the kernel took, followed by the output buffer, are
  // the accepted messages, each whole, in sendInLoop order; and until close
  // write interest is on exactly when the buffer has something.
  lemma ByteStream(mark: nat, wantHigh: bool, wantComplete: bool, steps: seq<Step>)
    requires IsRun(Init(mark, wantHigh, wantComplete), steps)
    ensures var c := Exec(Init(mark, wantHigh, wantComplete), steps);
      && Accepted(c.past.log) == c.past.sent + c.buffer
      && (!c.phase.Disconnected? ==> (c.writing <==> c.buffer != []))
      && (c.phase.Disconnected? ==> !c.writing)
  {
    hide IsRun, Exec;
    InitInv(mark, wantHigh, wantComplete);
    RunKeepsInv(Init(mark, wantHigh, wantComplete), steps);
  }

  // While the connection is not closed, SHUT_WR is only issued when every
  // accepted byte is with the kernel; nothing is sent after any SHUT_WR; and
  // once shutdown was asked for, an empty buffer means it has been issued.
  lemma GracefulHalfClose(mark: nat, wantHigh: bool, wantComplete: bool, steps: seq<Step>)
    requires IsRun(Init(mark, wantHigh, wantComplete), steps)
    ensures var c := Exec(Init(mark, wantHigh, wantComplete), steps);
      && (forall i :: 0 <= i < |c.past.shuts| && !c.past.shuts[i].closed ==> c.past.shuts[i].unsent == 0)
      && (forall i :: 0 <= i < |c.past.shuts| ==> c.past.shuts[i].sentSoFar == |c.past.sent|)
      && (c.past.asked && !c.phase.Disconnected? && c.buffer == [] ==> c.past.shuts != [])
  {
    hide IsRun, Exec;
    InitInv(mark, wantHigh, wantComplete);
    RunKeepsInv(Init(mark, wantHigh, wantComplete), steps);
  }

  // The handleWrite that drains the buffer of a disconnecting connection issues
  // it at once.
  lemma DrainIssuesShutdown(c: Conn, o: Outcome)
    requires Inv(c) && c.phase.Disconnecting? && c.buffer != [] && o == Wrote(|c.buffer|)
    ensures var t := HandleWrite(c, o);
      t.buffer == [] && !t.writing && |t.past.shuts| == |c.past.shuts| + 1 && !t.past.shuts[|c.past.shuts|].closed
  {
  }

  // A write-complete notice is only queued with no accepted byte unsent.
  lemma CompletesMeanSent(mark: nat, wantHigh: bool, wantComplete: bool, steps: seq<Step>)
    requires IsRun(Init(mark, wantHigh, wantComplete), steps)
    ensures var c := Exec(Init(mark, wantHigh, wantComplete), steps);
      forall i :: 0 <= i < |c.past.completes| ==> c.past.completes[i] == 0
  {
    hide IsRun, Exec;
    InitInv(mark, wantHigh, wantComplete);
    RunKeepsInv(Init(mark, wantHigh, wantComplete), steps);
  }

  // The buffer lengths a run goes through, and the upward crossings of a mark
  // among them.
  function Lengths(c: Conn, steps: seq<Step>): (r: seq<nat>)
    requires IsRun(c, steps)
    ensures |r| == |steps| + 1 && r[0] == |c.buffer|
    decreases steps
  {
    [|c.buffer|] + if steps == [] then [] else Lengths(Next(c, steps[0]), steps[1..])
  }

  predicate CrossesUp(a: nat, b: nat, mark: nat) {
    a < mark <= b
  }

  function Crossings(lengths: seq<nat>, mark: nat): nat {
    if |lengths| < 2 then 0
    else (if CrossesUp(lengths[0], lengths[1], mark) then 1 else 0) + Crossings(lengths[1..], mark)
  }

  // The high-water notices of one step: one exactly when the buffer length
  // crosses the mark upwards.
  ghost predicate NotesCrossing(c: Conn, t: Conn) {
    && t.mark == c.mark && t.wantHigh == c.wantHigh
    && t.past.highs == c.past.highs + if c.wantHigh && CrossesUp(|c.buffer|, |t.buffer|, c.mark) then 1 else 0
  }

  lemma SendNotesCrossing(c: Conn, message: seq<Byte>, o: Outcome)
    requires TakesAtMost(o, |message|)
    ensures NotesCrossing(c, SendInLoop(c, message, o))
  {
  }

  lemma WriteNotesCrossing(c: Conn, o: Outcome)
    requires TakesAtMost(o, |c.buffer|)
    ensures NotesCrossing(c, HandleWrite(c, o))
  {
  }

  lemma StepNotesCrossing(c: Conn, step: Step)
    requires Enabled(c, step)
    ensures NotesCrossing(c, Next(c, step))
  {
    hide SendInLoop, HandleWrite;
    match step
    case Send(_, message, o) => SendNotesCrossing(c, message, o);
    case Run(o) =>
      if c.tasks[0].SendTask? {
        SendNotesCrossing(c.(tasks := c.tasks[1..]), c.tasks[0].message, o);
      }
    case Writable(o) => WriteNotesCrossing(c, o);
    case _ =>
  }

  // High-water notices are exact edges: as many as upward crossings.
  lemma {:induction false} HighsAreCrossings(c: Conn, steps: seq<Step>)
    requires IsRun(c, steps) && c.wantHigh
    ensures Exec(c, steps).past.highs == c.past.highs + Crossings(Lengths(c, steps), c.mark)
    decreases steps
  {
    if steps != [] {
      hide Next, Enabled;
      StepNotesCrossing(c, steps[0]);
      var n := Next(c, steps[0]);
      HighsAreCrossings(n, steps[1..]);
      assert Lengths(c, steps)[1..] == Lengths(n, steps[1..]);
    }
  }

  // The counts of high-water notices that a run goes through.
  function Highs(c: Conn, steps: seq<Step>): (r: seq<nat>)
    requires IsRun(c, steps)
    ensures |r| == |steps| + 1 && r[0] == c.past.highs
    decreases steps
  {
    [c.past.highs] + if steps == [] then [] else Highs(Next(c, steps[0]), steps[1..])
  }

  // A step of a run queues a notice exactly when it crosses the mark upwards.
  lemma {:induction false} NoticeIffCrossing(c: Conn, steps: seq<Step>, i: nat)
    requires IsRun(c, steps) && c.wantHigh && i < |steps|
    ensures Highs(c, steps)[i + 1] > Highs(c, steps)[i]
      <==> CrossesUp(Lengths(c, steps)[i], Lengths(c, steps)[i + 1], c.mark)
    decreases steps
  {
    hide Next, Enabled;
    StepNotesCrossing(c, steps[0]);
    if i > 0 {
      NoticeIffCrossing(Next(c, steps[0]), steps[1..], i - 1);
    }
  }

  // Between two notices of one run the buffer was drained below the mark.
  lemma DropBetweenNotices(c: Conn, steps: seq<Step>, i: nat, j: nat)
    requires IsRun(c, steps) && c.wantHigh && i < j < |steps|
    requires Highs(c, steps)[i + 1] > Highs(c, steps)[i] && Highs(c, steps)[j + 1] > Highs(c, steps)[j]
    ensures exists k :: i + 1 <= k < j && Lengths(c, steps)[k] >= c.mark > Lengths(c, steps)[k + 1]
  {
    NoticeIffCrossing(c, steps, i);
    NoticeIffCrossing(c, steps, j);
    hide *;
    DropBetweenCrossings(Lengths(c, steps), c.mark, i, j);
  }

  lemma DropBetweenCrossings(lengths: seq<nat>, mark: nat, i: nat, j: nat)
    requires i < j < |lengths| - 1
    requires CrossesUp(lengths[i], lengths[i + 1], mark) && CrossesUp(lengths[j], lengths[j + 1], mark)
    ensures exists k :: i + 1 <= k < j && lengths[k] >= mark > lengths[k + 1]
  {
    DropBefore(lengths, mark, i + 1, j);
  }

  lemma {:induction false} DropBefore(lengths: seq<nat>, mark: nat, i: nat, j: nat)
    requires i < j < |lengths| && lengths[i] >= mark && lengths[j] < mark
    ensures exists k :: i <= k < j && lengths[k] >= mark > lengths[k + 1]
    decreases j - i
  {
    if lengths[i + 1] < mark {
      assert lengths[i] >= mark > lengths[i + 1];
    } else {
      DropBefore(lengths, mark, i + 1, j);
    }
  }

  // The notices themselves: sendInLoop queues a high-water notice with the new
  // length exactly at a crossing, and a write-complete notice exactly when the
  // direct write took the whole message.
  lemma SendQueuesNotices(c: Conn, message: seq<Byte>, o: Outcome)
    requires TakesAtMost(o, |message|)
    ensures var t := SendInLoop(c, message, o);
      t.tasks == c.tasks
        + (if c.wantHigh && CrossesUp(|c.buffer|, |t.buffer|, c.mark) then [HighWaterNotice(|t.buffer|)] else [])
        + (if c.wantComplete && !c.phase.Disconnected? && WritesDirectly(c) && o == Wrote(|message|)
           then [CompleteNotice] else [])
  {
  }

  // handleWrite queues a write-complete notice exactly when it empties the
  // buffer, and nothing else.
  lemma WriteQueuesNotices(c: Conn, o: Outcome)
    requires InterestFollowsBuffer(c) && TakesAtMost(o, |c.buffer|)
    ensures var t := HandleWrite(c, o);
      t.tasks == c.tasks + if c.wantComplete && c.buffer != [] && t.buffer == [] then [CompleteNotice] else []
  {
  }

  // In the loop a message is dropped exactly when the connection is closed or
  // the write that goes straight to the kernel breaks; after a SHUT_WR on a live
  // connection that is always so.
  lemma SendVerdict(c: Conn, message: seq<Byte>, o: Outcome)
    requires Inv(c) && Possible(c, o, |message|)
    ensures var t := SendInLoop(c, message, o);
      && |t.past.log| == |c.past.log| + 1
      && (t.past.log[|c.past.log|] == Verdict(message, false) <==>
            c.phase.Disconnected? || (c.buffer == [] && o.Broken?))
      && (c.past.shuts != [] ==> t.past.log[|c.past.log|] == Verdict(message, false) && t.past.sent == c.past.sent)
  {
  }

  lemma Prepend(c: Conn, step: Step, rest: seq<Step>, steps: seq<Step>)
    requires steps == [step] + rest
    requires Enabled(c, step) && IsRun(Next(c, step), rest)
    ensures IsRun(c, steps) && Exec(c, steps) == Exec(Next(c, step), rest)
  {
    hide Next, Enabled;
    assert steps[0] == step && steps[1..] == rest;
  }

  // ------------------------------------------- shutdown and queued messages

  ghost predicate SendAt(tasks: seq<Task>, i: nat) {
    i < |tasks| && tasks[i].SendTask?
  }

  ghost predicate NoSends(tasks: seq<Task>) {
    forall i: nat :: !SendAt(tasks, i)
  }

  // Nothing that stands before a queued message can fill the buffer or
  // half-close.
  ghost predicate Clear(tasks: seq<Task>) {
    forall i: nat, j: nat :: i < j && SendAt(tasks, j) ==>
      !tasks[i].ShutdownTask? && (tasks[i].SendTask? ==> tasks[i].message == [])
  }

  // A message comes to be sent on a live connection that is half-closed.
  predicate Overtaken(c: Conn) {
    c.tasks != [] && c.tasks[0].SendTask? && c.past.shuts != [] && !c.phase.Disconnected?
  }

  // It is dropped, whatever the kernel reports.
  lemma OvertakenIsDropped(c: Conn, o: Outcome)
    requires Inv(c) && Overtaken(c) && Enabled(c, Run(o))
    ensures Next(c, Run(o)).past.log == c.past.log + [Verdict(c.tasks[0].message, false)]
    ensures Next(c, Run(o)).past.sent == c.past.sent
  {
  }

  // Once the connection is not connected and no message is queued, no run
  // changes what was accepted or dropped.
  lemma {:induction false} LogIsFinal(c: Conn, steps: seq<Step>)
    requires IsRun(c, steps) && c.phase.Rank() >= 2 && NoSends(c.tasks)
    ensures Exec(c, steps).past.log == c.past.log && NoSends(Exec(c, steps).tasks)
    decreases steps
  {
    if steps != [] {
      hide IsRun, Exec, Next, Enabled, NoSends;
      Unfold(c, steps);
      QuietStep(c, steps[0]);
      LogIsFinal(Next(c, steps[0]), steps[1..]);
    }
  }

  lemma Unfold(c: Conn, steps: seq<Step>)
    requires IsRun(c, steps) && steps != []
    ensures Enabled(c, steps[0]) && IsRun(Next(c, steps[0]), steps[1..])
    ensures Exec(c, steps) == Exec(Next(c, steps[0]), steps[1..])
  {
    hide Next, Enabled;
  }

  // What one step takes off and adds to the functors once messages no longer
  // come in.
  predicate Grows(c: Conn, t: Conn, popped: bool) {
    && (popped ==> c.tasks != [])
    && var rest := if popped then c.tasks[1..] else c.tasks;
       && |t.tasks| >= |rest| && t.tasks[..|rest|] == rest
       && forall i :: |rest| <= i < |t.tasks| ==> !t.tasks[i].SendTask?
  }

  lemma SendGrows(c: Conn, message: seq<Byte>, o: Outcome)
    requires TakesAtMost(o, |message|)
    ensures Grows(c, SendInLoop(c, message, o), false)
  {
    SendQueuesNotices(c, message, o);
    hide SendInLoop;
  }

  lemma WriteGrows(c: Conn, o: Outcome)
    requires TakesAtMost(o, |c.buffer|)
    ensures Grows(c, HandleWrite(c, o), false)
  {
  }

  lemma RunGrows(c: Conn, o: Outcome)
    requires Enabled(c, Run(o))
    ensures Grows(c, RunTask(c, o), true)
  {
    hide SendInLoop;
    if c.tasks[0].SendTask? {
      SendGrows(c.(tasks := c.tasks[1..]), c.tasks[0].message, o);
    }
  }

  // Only a send by another thread queues a message.
  lemma StepGrows(c: Conn, step: Step)
    requires Enabled(c, step) && !(step.Send? && !step.inLoop && c.phase.Connected?)
    ensures Grows(c, Next(c, step), step.Run?)
  {
    hide SendInLoop, HandleWrite, RunTask;
    match step
    case Send(_, message, o) => SendGrows(c, message, o);
    case Run(o) => RunGrows(c, o);
    case Writable(o) => WriteGrows(c, o);
    case _ =>
  }

  lemma LateStepGrows(c: Conn, step: Step)
    requires Enabled(c, step) && c.phase.Rank() >= 2
    ensures Grows(c, Next(c, step), step.Run?) && Next(c, step).phase.Rank() >= 2
  {
    StepGrows(c, step);
    StepMovesForward(c, step);
    hide Next, Enabled;
  }

  lemma QuietStep(c: Conn, step: Step)
    requires Enabled(c, step) && c.phase.Rank() >= 2 && NoSends(c.tasks)
    ensures var t := Next(c, step); t.phase.Rank() >= 2 && NoSends(t.tasks) && t.past.log == c.past.log
  {
    LateStepGrows(c, step);
    assert step.Run? ==> !SendAt(c.tasks, 0);
    QuietLog(c, step);
    hide Next, Enabled;
    assert step.Run? ==> forall i: nat :: SendAt(c.tasks[1..], i) ==> SendAt(c.tasks, i + 1);
    GrowsKeepsNoSends(c, Next(c, step), step.Run?);
  }

  lemma QuietLog(c: Conn, step: Step)
    requires Enabled(c, step) && c.phase.Rank() >= 2 && (step.Run? ==> !c.tasks[0].SendTask?)
    ensures Next(c, step).past.log == c.past.log
  {
  }

  lemma GrowsKeepsNoSends(c: Conn, t: Conn, popped: bool)
    requires Grows(c, t, popped) && NoSends(if popped then c.tasks[1..] else c.tasks)
    ensures NoSends(t.tasks)
  {
    var rest := if popped then c.tasks[1..] else c.tasks;
    forall i: nat | i < |t.tasks|
      ensures !SendAt(t.tasks, i)
    {
      assert i < |rest| ==> t.tasks[..|rest|][i] == rest[i] && !SendAt(rest, i);
    }
  }

  // How a shutdown that overtakes nothing goes on: closed, or no message left,
  // or nothing to drain and the way clear.
  ghost predicate Unhurried(c: Conn) {
    c.phase.Rank() >= 2 &&
    (|| c.phase.Disconnected?
     || NoSends(c.tasks)
     || (c.buffer == [] && !c.writing && c.past.shuts == [] && Clear(c.tasks)))
  }

  lemma ClearTail(c: Conn, t: Conn, popped: bool)
    requires Grows(c, t, popped) && Clear(c.tasks)
    ensures Clear(t.tasks)
    ensures popped && (c.tasks[0].ShutdownTask? || (c.tasks[0].SendTask? && c.tasks[0].message != [])) ==> NoSends(t.tasks)
  {
    var d := if popped then 1 else 0;
    var rest := if popped then c.tasks[1..] else c.tasks;
    forall i: nat | i < |rest|
      ensures t.tasks[i] == c.tasks[i + d]
    {
      assert t.tasks[..|rest|][i] == rest[i];
    }
    forall i: nat, j: nat | i < j && SendAt(t.tasks, j)
      ensures !t.tasks[i].ShutdownTask? && (t.tasks[i].SendTask? ==> t.tasks[i].message == [])
    {
      assert SendAt(c.tasks, j + d);
    }
    if popped && (c.tasks[0].ShutdownTask? || (c.tasks[0].SendTask? && c.tasks[0].message != [])) {
      forall j: nat
        ensures !SendAt(t.tasks, j)
      {
        assert !SendAt(c.tasks, j + 1);
      }
    }
  }

  // What a step does to the buffer when nothing waits to be written.
  lemma EmptyStep(c: Conn, step: Step)
    requires Enabled(c, step) && c.phase.Rank() >= 2 && c.buffer == [] && !c.writing && c.past.shuts == []
    requires step.Run? ==> !c.tasks[0].ShutdownTask? && (c.tasks[0].SendTask? ==> c.tasks[0].message == [])
    ensures var t := Next(c, step); t.buffer == [] && !t.writing && t.past.shuts == []
  {
  }

  lemma UnhurriedStep(c: Conn, step: Step)
    requires Unhurried(c) && Enabled(c, step)
    ensures Unhurried(Next(c, step))
  {
    LateStepGrows(c, step);
    StepMovesForward(c, step);
    if c.phase.Disconnected? {
    } else if NoSends(c.tasks) {
      QuietStep(c, step);
    } else {
      ClearTail(c, Next(c, step), step.Run?);
      if step.Run? && (c.tasks[0].ShutdownTask? || (c.tasks[0].SendTask? && c.tasks[0].message != [])) {
      } else {
        EmptyStep(c, step);
      }
      hide Next, Enabled, Clear, NoSends;
    }
  }

  lemma {:induction false} UnhurriedRun(c: Conn, steps: seq<Step>)
    requires Unhurried(c) && IsRun(c, steps)
    ensures Unhurried(Exec(c, steps)) && !Overtaken(Exec(c, steps))
    decreases steps
  {
    hide Next, Enabled;
    if steps == [] {
      assert c.tasks != [] && c.tasks[0].SendTask? ==> SendAt(c.tasks, 0);
    } else {
      hide IsRun, Exec, Unhurried;
      Unfold(c, steps);
      UnhurriedStep(c, steps[0]);
      UnhurriedRun(Next(c, steps[0]), steps[1..]);
    }
  }

  // When shutdown() can overtake a message: one is queued, and the shutdown acts
  // at once with nothing to write, or something is being drained, or a queued
  // message that may fill the buffer stands before another one.
  ghost predicate CanOvertake(c: Conn, inLoop: bool) {
    && !NoSends(c.tasks)
    && (inLoop || c.buffer != [] || !Clear(c.tasks))
  }

  // The kernel takes everything of a connection that is shutting down.
  lemma DrainHalfCloses(c: Conn)
    requires Inv(c) && c.phase.Disconnecting? && c.buffer != []
    ensures Enabled(c, Writable(Wrote(|c.buffer|)))
    ensures var t := Next(c, Writable(Wrote(|c.buffer|)));
      Inv(t) && t.phase.Disconnecting? && t.past.shuts != [] && Grows(c, t, false)
  {
    var step := Writable(Wrote(|c.buffer|));
    LateStepGrows(c, step);
    StepKeepsInv(c, step);
  }

  // Functors that are no sends and no closes run without effect on the trip to
  // the first message.
  ghost predicate OnlyNotices(tasks: seq<Task>, n: nat) {
    n <= |tasks| && forall i: nat :: i < n ==> tasks[i].CompleteNotice? || tasks[i].HighWaterNotice? || tasks[i].ShutdownTask?
  }

  lemma {:induction false} ReachFirstSend(c: Conn, n: nat) returns (steps: seq<Step>)
    requires c.phase.Disconnecting? && c.past.shuts != [] && OnlyNotices(c.tasks, n) && SendAt(c.tasks, n)
    ensures IsRun(c, steps) && Overtaken(Exec(c, steps))
    decreases n
  {
    if n == 0 {
      steps := [];
    } else {
      var t := Next(c, Run(WouldBlock));
      assert t.phase.Disconnecting? && t.past.shuts != [] && t.tasks == c.tasks[1..];
      hide Next, Overtaken, IsRun, Exec;
      steps := ReachFirstSend(t, n - 1);
      assert Enabled(c, Run(WouldBlock));
      Prepend(c, Run(WouldBlock), steps, [Run(WouldBlock)] + steps);
      steps := [Run(WouldBlock)] + steps;
    }
  }

  lemma {:induction false} FirstSend(tasks: seq<Task>, j: nat) returns (n: nat)
    requires SendAt(tasks, j) && forall i: nat :: i < j ==> !tasks[i].ForceCloseTask?
    ensures n <= j && SendAt(tasks, n) && OnlyNotices(tasks, n)
    decreases j
  {
    n := j;
    if i: nat :| i < j && SendAt(tasks, i) {
      n := FirstSend(tasks, i);
    } else {
      forall i: nat | i < j
        ensures !tasks[i].SendTask?
      {
        assert !SendAt(tasks, i);
      }
    }
  }

  // A connection with something to drain half-closes before the message at j.
  lemma DrainOvertakes(c: Conn, j: nat) returns (steps: seq<Step>)
    requires Inv(c) && c.phase.Disconnecting? && c.buffer != []
    requires SendAt(c.tasks, j) && forall i: nat :: i < j ==> !c.tasks[i].ForceCloseTask?
    ensures IsRun(c, steps) && Overtaken(Exec(c, steps))
  {
    var step := Writable(Wrote(|c.buffer|));
    DrainHalfCloses(c);
    var t := Next(c, step);
    assert forall i: nat :: i <= j ==> t.tasks[i] == t.tasks[..|c.tasks|][i] == c.tasks[i];
    assert SendAt(t.tasks, j);
    hide Inv, Next, Enabled, Grows, Overtaken, IsRun, Exec;
    var n := FirstSend(t.tasks, j);
    steps := ReachFirstSend(t, n);
    Prepend(c, step, steps, [step] + steps);
    steps := [step] + steps;
  }

  lemma Shifted(c: Conn, t: Conn)
    requires Grows(c, t, true)
    ensures forall k: nat :: k + 1 < |c.tasks| ==> k < |t.tasks| && t.tasks[k] == c.tasks[k + 1]
  {
    forall k: nat | k + 1 < |c.tasks|
      ensures t.tasks[k] == c.tasks[k + 1]
    {
      assert t.tasks[..|c.tasks| - 1][k] == c.tasks[1..][k];
    }
  }

  // A message with content at i stands before another one at j.
  ghost predicate Loaded(c: Conn, i: nat, j: nat) {
    && Inv(c) && c.phase.Disconnecting? && c.buffer == [] && c.past.shuts == []
    && i < j && SendAt(c.tasks, j) && SendAt(c.tasks, i) && c.tasks[i].message != []
    && forall k: nat :: k < j ==> c.tasks[k].SendTask? || c.tasks[k].CompleteNotice? || c.tasks[k].HighWaterNotice?
  }

  // The head of the queue runs while the kernel takes nothing.
  lemma StallingRun(c: Conn)
    requires Inv(c) && c.phase.Disconnecting? && c.buffer == [] && c.past.shuts == []
    requires c.tasks != [] && (c.tasks[0].SendTask? || c.tasks[0].CompleteNotice? || c.tasks[0].HighWaterNotice?)
    ensures Enabled(c, Run(WouldBlock))
    ensures var t := Next(c, Run(WouldBlock));
      && Inv(t) && t.phase.Disconnecting? && t.past.shuts == [] && Grows(c, t, true)
      && t.buffer == if c.tasks[0].SendTask? then c.tasks[0].message else []
  {
    StepKeepsInv(c, Run(WouldBlock));
    LateStepGrows(c, Run(WouldBlock));
    hide Inv;
  }

  lemma LoadedStep(c: Conn, i: nat, j: nat)
    requires Loaded(c, i, j)
    ensures j > 0 && Enabled(c, Run(WouldBlock))
    ensures var t := Next(c, Run(WouldBlock));
      if t.buffer != [] then
        && Inv(t) && t.phase.Disconnecting? && SendAt(t.tasks, j - 1)
        && forall k: nat :: k < j - 1 ==> !t.tasks[k].ForceCloseTask?
      else i > 0 && Loaded(t, i - 1, j - 1)
  {
    StallingRun(c);
    var t := Next(c, Run(WouldBlock));
    Shifted(c, t);
    hide Inv, Next, Enabled, Grows;
    assert SendAt(t.tasks, j - 1);
    assert i > 0 ==> SendAt(t.tasks, i - 1);
  }

  lemma {:induction false} LoadedOvertakes(c: Conn, i: nat, j: nat) returns (steps: seq<Step>)
    requires Loaded(c, i, j)
    ensures IsRun(c, steps) && Overtaken(Exec(c, steps))
    decreases i
  {
    hide Inv, Next, Enabled, Overtaken, IsRun, Exec, Loaded;
    LoadedStep(c, i, j);
    var t := Next(c, Run(WouldBlock));
    if t.buffer != [] {
      steps := DrainOvertakes(t, j - 1);
    } else {
      steps := LoadedOvertakes(t, i - 1, j - 1);
    }
    Prepend(c, Run(WouldBlock), steps, [Run(WouldBlock)] + steps);
    steps := [Run(WouldBlock)] + steps;
  }

  lemma OvertakeHappens(c: Conn, inLoop: bool) returns (steps: seq<Step>)
    requires Inv(c) && c.phase.Connected? && CanOvertake(c, inLoop)
    ensures var t := Next(c, Shutdown(inLoop)); IsRun(t, steps) && Overtaken(Exec(t, steps))
  {
    var t := Next(c, Shutdown(inLoop));
    StepKeepsInv(c, Shutdown(inLoop));
    var j: nat :| SendAt(c.tasks, j);
    assert forall i: nat :: i < |c.tasks| ==> t.tasks[i] == c.tasks[i];
    assert forall i: nat :: i < |c.tasks| ==> !c.tasks[i].ForceCloseTask? && !c.tasks[i].ShutdownTask?;
    assert SendAt(t.tasks, j);
    if c.buffer != [] {
      steps := DrainOvertakes(t, j);
    } else if inLoop {
      var n := FirstSend(t.tasks, j);
      steps := ReachFirstSend(t, n);
    } else {
      var i: nat, k: nat :|
        i < k && SendAt(c.tasks, k) && (c.tasks[i].ShutdownTask? || (c.tasks[i].SendTask? && c.tasks[i].message != []));
      assert SendAt(t.tasks, k) && SendAt(t.tasks, i);
      steps := LoadedOvertakes(t, i, k);
    }
  }

  lemma ShutdownStaysUnhurried(c: Conn, inLoop: bool)
    requires Inv(c) && c.phase.Connected? && !CanOvertake(c, inLoop)
    ensures Unhurried(Next(c, Shutdown(inLoop)))
  {
    var t := Next(c, Shutdown(inLoop));
    assert Grows(c, t, false);
    if NoSends(c.tasks) {
      GrowsKeepsNoSends(c, t, false);
    } else {
      ClearTail(c, t, false);
    }
  }

  // Exactly when a shutdown() can drop messages sent before it: some run after
  // it brings a queued message to a half-closed connection, where it is dropped,
  // if and only if one is queued at the call and the shutdown acts in the loop,
  // or something waits to be written, or a queued message with content stands
  // before another one.
  lemma ShutdownOvertakesIff(c: Conn, inLoop: bool)
    requires Inv(c) && c.phase.Connected?
    ensures var t := Next(c, Shutdown(inLoop));
      CanOvertake(c, inLoop) <==> exists steps :: IsRun(t, steps) && Overtaken(Exec(t, steps))
  {
    var t := Next(c, Shutdown(inLoop));
    hide Inv, Next, IsRun, Exec, Overtaken, Unhurried;
    if CanOvertake(c, inLoop) {
      var steps := OvertakeHappens(c, inLoop);
      assert IsRun(t, steps) && Overtaken(Exec(t, steps));
    } else {
      ShutdownStaysUnhurried(c, inLoop);
      forall steps | IsRun(t, steps)
        ensures !Overtaken(Exec(t, steps))
      {
        UnhurriedRun(t, steps);
      }
    }
  }

  // One such run: another thread sends y and shuts down while x is being
  // drained; the drain half-closes first and y is dropped.
  function OvertakingSteps(x: Byte, y: Byte): seq<Step> {
    [Establish, Send(true, [x], WouldBlock), Send(false, [y], WouldBlock), Shutdown(false), Writable(Wrote(1)), Run(Broken)]
  }

  // x is being drained and y is queued.
  function Draining(x: Byte, y: Byte): Conn {
    Conn(Connected, true, [x], 1000, false, false, [SendTask([y])], Past([Verdict([x], true)], [], [], false, [], 0))
  }

  lemma OvertakingStarts(x: Byte, y: Byte, steps: seq<Step>)
    requires IsRun(Draining(x, y), steps)
    ensures var c := Init(1000, false, false);
      var all := [Establish] + ([Send(true, [x], WouldBlock)] + ([Send(false, [y], WouldBlock)] + steps));
      IsRun(c, all) && Exec(c, all) == Exec(Draining(x, y), steps)
  {
    var c := Init(1000, false, false);
    var c1 := Next(c, Establish);
    var c2 := Next(c1, Send(true, [x], WouldBlock));
    assert Enabled(c2, Send(false, [y], WouldBlock));
    assert Next(c2, Send(false, [y], WouldBlock)) == Draining(x, y);
    hide IsRun, Exec, Next, Draining;
    var queued := [Send(false, [y], WouldBlock)] + steps;
    var sent := [Send(true, [x], WouldBlock)] + queued;
    Prepend(c2, Send(false, [y], WouldBlock), steps, queued);
    Prepend(c1, Send(true, [x], WouldBlock), queued, sent);
    Prepend(c, Establish, sent, [Establish] + sent);
  }

  lemma ShutdownOvertakesSend(x: Byte, y: Byte)
    ensures var c := Init(1000, false, false);
      && IsRun(c, OvertakingSteps(x, y))
      && Exec(c, OvertakingSteps(x, y)).past.log == [Verdict([x], true), Verdict([y], false)]
      && Exec(c, OvertakingSteps(x, y)).past.sent == [x]
  {
    var c3 := Draining(x, y);
    var c4 := Next(c3, Shutdown(false));
    assert c4 == c3.(phase := Disconnecting, tasks := [SendTask([y]), ShutdownTask]);
    var c5 := Next(c4, Writable(Wrote(1)));
    assert c5.buffer == [] && c5.past.sent == [x] && |c5.past.shuts| == 1;
    var c6 := Next(c5, Run(Broken));
    assert c6.past.log == [Verdict([x], true), Verdict([y], false)] && c6.past.sent == [x];
    assert IsRun(c6, []) && Exec(c6, []) == c6;
    hide IsRun, Exec, Next;
    var rest := [Shutdown(false), Writable(Wrote(1)), Run(Broken)];
    Prepend(c5, Run(Broken), [], [Run(Broken)]);
    Prepend(c4, Writable(Wrote(1)), [Run(Broken)], [Writable(Wrote(1)), Run(Broken)]);
    Prepend(c3, Shutdown(false), [Writable(Wrote(1)), Run(Broken)], rest);
    OvertakingStarts(x, y, rest);
    assert OvertakingSteps(x, y)
        == [Establish] + ([Send(true, [x], WouldBlock)] + ([Send(false, [y], WouldBlock)] + rest));
  }

  // ------------------------------------------------- what the kernel took

  // handleWrite moves exactly the bytes the kernel reports from the buffer to
  // what is sent; any other report leaves both alone.
  lemma HandleWriteResult(c: Conn, o: Outcome)
    requires TakesAtMost(o, |c.buffer|)
    ensures var t, n := HandleWrite(c, o), if c.writing && o.Wrote? then o.n else 0;
      && t.past.sent == c.past.sent + c.buffer[..n]
      && t.buffer == c.buffer[n..]
      && t.past.log == c.past.log
  {
  }

  // Whether a step calls ::write on the connection's socket.
  predicate Writes(c: Conn, step: Step) {
    match step
    case Send(inLoop, _, _) => inLoop && c.phase.Connected? && WritesDirectly(c)
    case Run(_) => c.tasks != [] && c.tasks[0].SendTask? && !c.phase.Disconnected? && WritesDirectly(c)
    case Writable(_) => c.writing
    case _ => false
  }

  // What the kernel reports over a run, added up.
  function KernelTook(c: Conn, steps: seq<Step>): nat
    requires IsRun(c, steps)
    decreases steps
  {
    if steps == [] then 0
    else
      (if Writes(c, steps[0]) && steps[0].outcome.Wrote? then steps[0].outcome.n else 0)
      + KernelTook(Next(c, steps[0]), steps[1..])
  }

  lemma SendTook(c: Conn, message: seq<Byte>, o: Outcome)
    requires TakesAtMost(o, |message|)
    ensures |SendInLoop(c, message, o).past.sent|
         == |c.past.sent| + if !c.phase.Disconnected? && WritesDirectly(c) && o.Wrote? then o.n else 0
  {
  }

  lemma StepTook(c: Conn, step: Step)
    requires Enabled(c, step)
    ensures |Next(c, step).past.sent|
         == |c.past.sent| + if Writes(c, step) && step.outcome.Wrote? then step.outcome.n else 0
  {
    hide SendInLoop, HandleWrite, ShutdownInLoop;
    match step
    case Send(_, message, o) => SendTook(c, message, o);
    case Run(o) =>
      if c.tasks[0].SendTask? {
        SendTook(c.(tasks := c.tasks[1..]), c.tasks[0].message, o);
      }
      ShutdownSendsNothing(c.(tasks := c.tasks[1..]));
    case Shutdown(_) => ShutdownSendsNothing(c.(phase := Disconnecting));
    case Writable(o) => HandleWriteResult(c, o);
    case _ =>
  }

  lemma ShutdownSendsNothing(c: Conn)
    ensures ShutdownInLoop(c).past.sent == c.past.sent && ShutdownInLoop(c).buffer == c.buffer
    ensures ShutdownInLoop(c).past.log == c.past.log && ShutdownInLoop(c).tasks == c.tasks
  {
  }

  lemma {:induction false} SentIsTally(c: Conn, steps: seq<Step>)
    requires IsRun(c, steps)
    ensures |Exec(c, steps).past.sent| == |c.past.sent| + KernelTook(c, steps)
    decreases steps
  {
    if steps != [] {
      hide Next, Enabled, Writes;
      StepTook(c, steps[0]);
      SentIsTally(Next(c, steps[0]), steps[1..]);
    }
  }

  // In every run the kernel got the accepted messages as far as its own reports
  // say, and the output buffer holds the rest.
  lemma KernelGotTheStream(mark: nat, wantHigh: bool, wantComplete: bool, steps: seq<Step>)
    requires IsRun(Init(mark, wantHigh, wantComplete), steps)
    ensures var c, n := Exec(Init(mark, wantHigh, wantComplete), steps), KernelTook(Init(mark, wantHigh, wantComplete), steps);
      && n <= |Accepted(c.past.log)|
      && c.past.sent == Accepted(c.past.log)[..n]
      && c.buffer == Accepted(c.past.log)[n..]
  {
    ByteStream(mark, wantHigh, wantComplete, steps);
    SentIsTally(Init(mark, wantHigh, wantComplete), steps);
    hide IsRun, Exec, KernelTook, Accepted;
  }

  // ------------------------------------------------ messages in call order

  // The messages that wait in the functor queue.
  function Waiting(tasks: seq<Task>): seq<seq<Byte>> {
    if tasks == [] then []
    else Waiting(tasks[..|tasks| - 1]) + Message(tasks[|tasks| - 1])
  }

  function Message(task: Task): seq<seq<Byte>> {
    if task.SendTask? then [task.message] else []
  }

  // The message a step passes to sendInLoop, and the one a call by another
  // thread leaves for later.
  function Passed(c: Conn, step: Step): seq<seq<Byte>> {
    match step
    case Send(inLoop, message, _) => if inLoop && c.phase.Connected? then [message] else []
    case Run(_) => if c.tasks != [] then Message(c.tasks[0]) else []
    case _ => []
  }

  function Posted(c: Conn, step: Step): seq<seq<Byte>> {
    match step
    case Send(inLoop, message, _) => if !inLoop && c.phase.Connected? then [message] else []
    case _ => []
  }

  // Over a run: all that passed, those of them that other threads had posted,
  // and all that other threads posted.
  datatype Traffic = Traffic(passed: seq<seq<Byte>>, delivered: seq<seq<Byte>>, posted: seq<seq<Byte>>)

  function TrafficOf(c: Conn, steps: seq<Step>): Traffic
    requires IsRun(c, steps)
    decreases steps
  {
    if steps == [] then Traffic([], [], [])
    else
      var now, rest := Passed(c, steps[0]), TrafficOf(Next(c, steps[0]), steps[1..]);
      Traffic(now + rest.passed,
              (if steps[0].Run? then now else []) + rest.delivered,
              Posted(c, steps[0]) + rest.posted)
  }

  function Logged(log: seq<Verdict>): seq<seq<Byte>> {
    seq(|log|, i requires 0 <= i < |log| => log[i].message)
  }

  lemma {:induction false} WaitingSplits(a: seq<Task>, b: seq<Task>)
    ensures Waiting(a + b) == Waiting(a) + Waiting(b)
    decreases b
  {
    if b == [] {
      assert a + b == a;
    } else {
      assert (a + b)[..|a + b| - 1] == a + b[..|b| - 1];
      WaitingSplits(a, b[..|b| - 1]);
    }
  }

  lemma {:induction false} NoMessages(tasks: seq<Task>)
    requires forall i :: 0 <= i < |tasks| ==> !tasks[i].SendTask?
    ensures Waiting(tasks) == []
  {
    if tasks != [] {
      NoMessages(tasks[..|tasks| - 1]);
    }
  }

  lemma WaitingOne(task: Task)
    ensures Waiting([task]) == Message(task)
  {
    assert [task][..0] == [] && Waiting([]) == [];
  }

  // The functors of a step: its head, if it runs one, and what it queues.
  lemma StepTasks(c: Conn, step: Step) returns (more: seq<Task>)
    requires Enabled(c, step)
    ensures step.Run? ==> c.tasks != []
    ensures Next(c, step).tasks == (if step.Run? then c.tasks[1..] else c.tasks) + more
    ensures Waiting(more) == Posted(c, step)
  {
    if step.Send? && !step.inLoop && c.phase.Connected? {
      more := [SendTask(step.message)];
      WaitingOne(more[0]);
    } else {
      StepGrows(c, step);
      hide Next, Enabled, Waiting;
      more := Added(c, Next(c, step), step.Run?);
    }
  }

  lemma Added(c: Conn, t: Conn, popped: bool) returns (more: seq<Task>)
    requires Grows(c, t, popped)
    ensures t.tasks == (if popped then c.tasks[1..] else c.tasks) + more && Waiting(more) == []
  {
    more := t.tasks[|if popped then c.tasks[1..] else c.tasks|..];
    NoMessages(more);
  }

  lemma StepWaiting(c: Conn, step: Step)
    requires Enabled(c, step)
    ensures (if step.Run? then Passed(c, step) else []) + Waiting(Next(c, step).tasks)
         == Waiting(c.tasks) + Posted(c, step)
  {
    var more := StepTasks(c, step);
    var rest := if step.Run? then c.tasks[1..] else c.tasks;
    hide Next, Enabled, Waiting, Posted;
    WaitingSplits(rest, more);
    if step.Run? {
      assert c.tasks == [c.tasks[0]] + rest;
      WaitingSplits([c.tasks[0]], rest);
      WaitingOne(c.tasks[0]);
    }
  }

  lemma SendLogs(c: Conn, message: seq<Byte>, o: Outcome)
    requires TakesAtMost(o, |message|)
    ensures Logged(SendInLoop(c, message, o).past.log) == Logged(c.past.log) + [message]
  {
    if !c.phase.Disconnected? && WritesDirectly(c) && o.Wrote? {
      DirectWriteResult(c, message, o.n);
    } else {
      IndirectResult(c, message, o);
    }
    hide SendInLoop;
  }

  lemma StepLogs(c: Conn, step: Step)
    requires Enabled(c, step)
    ensures Logged(Next(c, step).past.log) == Logged(c.past.log) + Passed(c, step)
  {
    hide SendInLoop, HandleWrite, ShutdownInLoop;
    match step
    case Send(_, message, o) => SendLogs(c, message, o);
    case Run(o) =>
      if c.tasks[0].SendTask? {
        SendLogs(c.(tasks := c.tasks[1..]), c.tasks[0].message, o);
      }
      ShutdownSendsNothing(c.(tasks := c.tasks[1..]));
    case Shutdown(_) => ShutdownSendsNothing(c.(phase := Disconnecting));
    case Writable(o) => HandleWriteResult(c, o);
    case _ =>
  }

  // In every run the messages of calls by other threads reach sendInLoop in
  // call order, none lost and none twice ...
  lemma {:induction false} MessagesKeepCallOrder(c: Conn, steps: seq<Step>)
    requires IsRun(c, steps)
    ensures TrafficOf(c, steps).delivered + Waiting(Exec(c, steps).tasks) == Waiting(c.tasks) + TrafficOf(c, steps).posted
    decreases steps
  {
    if steps != [] {
      hide Next, Enabled, Passed, Posted, Waiting;
      StepWaiting(c, steps[0]);
      var n, rest := Next(c, steps[0]), TrafficOf(Next(c, steps[0]), steps[1..]);
      MessagesKeepCallOrder(n, steps[1..]);
      Regroup(if steps[0].Run? then Passed(c, steps[0]) else [], Waiting(n.tasks), Waiting(c.tasks), Posted(c, steps[0]),
              rest.delivered, Waiting(Exec(n, steps[1..]).tasks), rest.posted);
    }
  }

  // ... and sendInLoop judges exactly the messages that reach it, in that order.
  lemma {:induction false} EveryMessageIsJudged(c: Conn, steps: seq<Step>)
    requires IsRun(c, steps)
    ensures Logged(Exec(c, steps).past.log) == Logged(c.past.log) + TrafficOf(c, steps).passed
    decreases steps
  {
    if steps != [] {
      hide Next, Enabled, Passed, Posted, Logged;
      StepLogs(c, steps[0]);
      var rest := TrafficOf(Next(c, steps[0]), steps[1..]);
      EveryMessageIsJudged(Next(c, steps[0]), steps[1..]);
      Append(Logged(c.past.log), Passed(c, steps[0]), rest.passed);
    }
  }

  // ------------------------------------------------ what the calls lead to

  // Exactly these steps close a connection, and exactly these end its being
  // connected.
  lemma ClosesIff(c: Conn, step: Step)
    requires Enabled(c, step)
    ensures Next(c, step).phase.Disconnected? <==>
      || c.phase.Disconnected?
      || step.PeerClosed?
      || (step.Destroy? && c.phase.Connected?)
      || (step.Run? && c.tasks[0].ForceCloseTask? && !c.phase.Connecting?)
    ensures Next(c, step).phase.Connected? <==>
      || step.Establish?
      || (c.phase.Connected? && !step.Shutdown? && !step.ForceClose? && !step.ForceCloseLater?
          && !Next(c, step).phase.Disconnected?)
  {
    hide SendInLoop, HandleWrite;
  }

  // A functor that waits waits on until it is run.
  lemma FunctorStays(c: Conn, step: Step, task: Task)
    requires Enabled(c, step) && c.phase.Rank() >= 2 && task in c.tasks && !(step.Run? && c.tasks[0] == task)
    ensures task in Next(c, step).tasks
  {
    LateStepGrows(c, step);
    hide Next, Enabled;
    var t, rest := Next(c, step), if step.Run? then c.tasks[1..] else c.tasks;
    assert task in rest;
    assert forall x :: x in t.tasks[..|rest|] ==> x in t.tasks;
  }

  // The half-close is asked for, or its functor waits, or it is too late.
  ghost predicate HalfCloseOwed(c: Conn) {
    && Inv(c) && c.phase.Rank() >= 2
    && (c.phase.Disconnected? || c.past.asked || ShutdownTask in c.tasks)
  }

  ghost predicate CloseOwed(c: Conn) {
    c.phase.Rank() >= 2 && (c.phase.Disconnected? || ForceCloseTask in c.tasks)
  }

  lemma HalfCloseStaysOwed(c: Conn, step: Step)
    requires HalfCloseOwed(c) && Enabled(c, step)
    ensures HalfCloseOwed(Next(c, step))
  {
    StepKeepsInv(c, step);
    StepMovesForward(c, step);
    AskedStays(c, step);
    if ShutdownTask in c.tasks && !(step.Run? && c.tasks[0] == ShutdownTask) {
      FunctorStays(c, step, ShutdownTask);
    }
    hide Inv, Next, Enabled;
  }

  lemma AskedStays(c: Conn, step: Step)
    requires Enabled(c, step)
    ensures c.past.asked ==> Next(c, step).past.asked
    ensures step.Run? && c.tasks[0].ShutdownTask? && !c.phase.Disconnected? ==> Next(c, step).past.asked
  {
  }

  lemma CloseStaysOwed(c: Conn, step: Step)
    requires CloseOwed(c) && Enabled(c, step)
    ensures CloseOwed(Next(c, step))
  {
    StepMovesForward(c, step);
    ClosesIff(c, step);
    if ForceCloseTask in c.tasks && !(step.Run? && c.tasks[0] == ForceCloseTask) {
      FunctorStays(c, step, ForceCloseTask);
    }
    hide Next, Enabled;
  }

  lemma {:induction false} OwedOverRun(c: Conn, steps: seq<Step>)
    requires IsRun(c, steps)
    ensures HalfCloseOwed(c) ==> HalfCloseOwed(Exec(c, steps))
    ensures CloseOwed(c) ==> CloseOwed(Exec(c, steps))
    decreases steps
  {
    if steps != [] {
      hide Next, Enabled, HalfCloseOwed, CloseOwed;
      if HalfCloseOwed(c) {
        HalfCloseStaysOwed(c, steps[0]);
      }
      if CloseOwed(c) {
        CloseStaysOwed(c, steps[0]);
      }
      OwedOverRun(Next(c, steps[0]), steps[1..]);
    }
  }

  // In every run after a shutdown() of a connected connection: it is closed, or
  // half-closed, or has bytes to drain first, or the functor waits.
  lemma ShutdownIsHonoured(c: Conn, inLoop: bool, steps: seq<Step>)
    requires Inv(c) && c.phase.Connected? && IsRun(Next(c, Shutdown(inLoop)), steps)
    ensures var t := Exec(Next(c, Shutdown(inLoop)), steps);
      && t.phase.Rank() >= 2
      && (t.phase.Disconnected? || t.past.shuts != [] || t.buffer != [] || ShutdownTask in t.tasks)
  {
    ShutdownOwes(c, inLoop);
    hide IsRun, Exec, Next;
    OwedOverRun(Next(c, Shutdown(inLoop)), steps);
  }

  // The functor at k gets its turn while the kernel takes nothing.
  lemma {:induction false} HalfCloseArrives(c: Conn, k: nat) returns (steps: seq<Step>)
    requires Inv(c) && c.phase.Rank() >= 2
    requires c.phase.Disconnected? || c.past.asked || (k < |c.tasks| && c.tasks[k] == ShutdownTask)
    ensures IsRun(c, steps) && (Exec(c, steps).phase.Disconnected? || Exec(c, steps).past.shuts != [])
    decreases k
  {
    if c.phase.Disconnected? || c.past.shuts != [] {
      steps := [];
    } else if c.buffer != [] {
      DrainHalfCloses(c);
      steps := [Writable(Wrote(|c.buffer|))];
      hide Next, Inv;
      Prepend(c, steps[0], [], steps);
    } else {
      var step, t := Run(WouldBlock), Next(c, Run(WouldBlock));
      StepKeepsInv(c, step);
      LateStepGrows(c, step);
      if k == 0 {
        steps := [];
      } else {
        Shifted(c, t);
        hide Next, Inv, Grows, IsRun, Exec;
        steps := HalfCloseArrives(t, k - 1);
      }
      hide Next, Inv, Grows;
      Prepend(c, step, steps, [step] + steps);
      steps := [step] + steps;
    }
  }

  // From any state of such a run the loop's own steps close or half-close.
  lemma ShutdownCompletes(c: Conn, inLoop: bool, steps: seq<Step>) returns (rest: seq<Step>)
    requires Inv(c) && c.phase.Connected? && IsRun(Next(c, Shutdown(inLoop)), steps)
    ensures var t := Exec(Next(c, Shutdown(inLoop)), steps);
      IsRun(t, rest) && (Exec(t, rest).phase.Disconnected? || Exec(t, rest).past.shuts != [])
  {
    ShutdownOwes(c, inLoop);
    var n := Next(c, Shutdown(inLoop));
    hide IsRun, Exec, Next;
    OwedOverRun(n, steps);
    var t := Exec(n, steps);
    var k: nat := 0;
    if !t.phase.Disconnected? && !t.past.asked {
      k :| 0 <= k < |t.tasks| && t.tasks[k] == ShutdownTask;
    }
    rest := HalfCloseArrives(t, k);
  }

  lemma ShutdownOwes(c: Conn, inLoop: bool)
    requires Inv(c) && c.phase.Connected?
    ensures HalfCloseOwed(Next(c, Shutdown(inLoop)))
  {
    StepKeepsInv(c, Shutdown(inLoop));
    var n := Next(c, Shutdown(inLoop));
    assert inLoop ==> n.past.asked;
    assert !inLoop ==> n.tasks[|c.tasks|] == ShutdownTask;
  }

  // In every run after a forceClose() of one not closed: closed, or the functor
  // waits, and running it closes.
  lemma ForceCloseIsHonoured(c: Conn, steps: seq<Step>)
    requires (c.phase.Connected? || c.phase.Disconnecting?) && IsRun(Next(c, ForceClose), steps)
    ensures var t := Exec(Next(c, ForceClose), steps);
      && t.phase.Rank() >= 2
      && (t.phase.Disconnected? || ForceCloseTask in t.tasks)
      && (t.tasks != [] && t.tasks[0] == ForceCloseTask ==>
            forall o :: Next(t, Run(o)).phase.Disconnected?)
  {
    assert Next(c, ForceClose).tasks[|c.tasks|] == ForceCloseTask;
    hide IsRun, Exec;
    OwedOverRun(Next(c, ForceClose), steps);
  }

  // ------------------------------------------------------------- the class

  class TcpConnection {
    var phase: Phase
    var writing: bool
    const outputBuffer: Buffers.Buffer
    var mark: nat
    var wantHigh: bool
    var wantComplete: bool
    var tasks: seq<Task>
    ghost var past: Past

    ghost predicate Valid()
      reads this, outputBuffer
    {
      outputBuffer.Valid()
    }

    ghost function State(): Conn
      reads this, outputBuffer, outputBuffer.data
      requires Valid()
    {
      Conn(phase, writing, outputBuffer.Contents(), mark, wantHigh, wantComplete, tasks, past)
    }

    constructor (mark: nat, wantHigh: bool, wantComplete: bool)
      ensures Valid() && fresh(outputBuffer) && fresh(outputBuffer.data)
      ensures State() == Init(mark, wantHigh, wantComplete)
    {
      phase, writing := Connecting, false;
      var buffer := new Buffers.Buffer();
      outputBuffer := buffer;
      this.mark, this.wantHigh, this.wantComplete := mark, wantHigh, wantComplete;
      tasks := [];
      past := Past([], [], [], false, [], 0);
    }

    method QueueComplete()
      requires Valid()
      modifies this`tasks, this`past
      ensures State() == NoteComplete(old(State()))
    {
      if wantComplete {
        tasks := tasks + [CompleteNotice];
        past := past.(completes := past.completes + [|outputBuffer.Contents()|]);
      }
    }

    // The slow path of sendInLoop.
    method AppendRest(rest: seq<Byte>)
      requires Valid()
      modifies this, outputBuffer, outputBuffer.data
      ensures Valid() && (outputBuffer.data == old(outputBuffer.data) || fresh(outputBuffer.data))
      ensures State() == Keep(old(State()), rest)
    {
      var oldLen := outputBuffer.ReadableBytes();
      assert oldLen == |outputBuffer.Contents()|;
      if oldLen + |rest| >= mark && oldLen < mark && wantHigh {
        tasks := tasks + [HighWaterNotice(oldLen + |rest|)];
        past := past.(highs := past.highs + 1);
      }
      outputBuffer.Append(rest);
      if !writing {
        writing := true;
      }
    }

    // `o` is what sockets::write reports if it is called.
    method DoSendInLoop(message: seq<Byte>, o: Outcome)
      requires Valid() && TakesAtMost(o, |message|)
      modifies this, outputBuffer, outputBuffer.data
      ensures Valid() && (outputBuffer.data == old(outputBuffer.data) || fresh(outputBuffer.data))
      ensures State() == SendInLoop(old(State()), message, o)
    {
      assert outputBuffer.ReadableBytes() == |outputBuffer.Contents()|;
      if phase.Disconnected? {
        past := past.(log := past.log + [Verdict(message, false)]);
        return;
      }
      var nwrote, remaining, faultError := 0, |message|, false;
      if !writing && outputBuffer.ReadableBytes() == 0 {
        match o
        case Wrote(n) =>
          nwrote, remaining := n, |message| - n;
          past := past.(sent := past.sent + message[..n]);
          if remaining == 0 {
            QueueComplete();
          }
        case Broken =>
          faultError := true;
        case _ =>
      }
      if !faultError && remaining > 0 {
        assert message[0..] == message;
        AppendRest(message[nwrote..]);
      }
      past := past.(log := past.log + [Verdict(message, !faultError)]);
    }

    method DoShutdownInLoop()
      requires Valid()
      modifies this`past
      ensures State() == ShutdownInLoop(old(State()))
    {
      past := past.(asked := past.asked || !phase.Disconnected?);
      if !writing {
        past := past.(shuts := past.shuts + [Shut(|outputBuffer.Contents()|, phase.Disconnected?, |past.sent|)]);
      }
    }

    method DoHandleWrite(o: Outcome)
      requires Valid() && TakesAtMost(o, |outputBuffer.Contents()|)
      modifies this, outputBuffer
      ensures Valid() && outputBuffer.data == old(outputBuffer.data)
      ensures State() == HandleWrite(old(State()), o)
      ensures old(writing) && o.Wrote? ==>
                && past.sent == old(past.sent) + old(outputBuffer.Contents())[..o.n]
                && outputBuffer.Contents() == old(outputBuffer.Contents())[o.n..]
      ensures !(old(writing) && o.Wrote?) ==> State() == old(State())
    {
      HandleWriteResult(State(), o);
      ghost var all := outputBuffer.Contents();
      assert outputBuffer.ReadableBytes() == |all|;
      if writing {
        match o
        case Wrote(n) =>
          if n > 0 {
            past := past.(sent := past.sent + all[..n]);
            outputBuffer.Retrieve(n);
            assert outputBuffer.Contents() == all[n..];
            assert outputBuffer.ReadableBytes() == |all| - n;
            if outputBuffer.ReadableBytes() == 0 {
              writing := false;
              QueueComplete();
              if phase.Disconnecting? {
                DoShutdownInLoop();
              }
            }
          }
        case _ =>
      }
    }

    method DoHandleClose()
      requires Valid() && (phase.Connected? || phase.Disconnecting?)
      modifies this`phase, this`writing
      ensures State() == HandleClose(old(State()))
    {
      phase := Disconnected;
      writing := false;
    }

    // The public calls: in the loop's own thread they act at once, from any
    // other thread they queue a functor.
    method DoSend(inLoop: bool, message: seq<Byte>, o: Outcome)
      requires Valid() && Possible(State(), o, |message|)
      modifies this, outputBuffer, outputBuffer.data
      ensures Valid() && (outputBuffer.data == old(outputBuffer.data) || fresh(outputBuffer.data))
      ensures State() == Next(old(State()), Send(inLoop, message, o))
    {
      hide SendInLoop;
      if phase.Connected? {
        if inLoop {
          DoSendInLoop(message, o);
        } else {
          tasks := tasks + [SendTask(message)];
        }
      }
    }

    method DoShutdown(inLoop: bool)
      requires Valid()
      modifies this`phase, this`tasks, this`past
      ensures State() == Next(old(State()), Shutdown(inLoop))
    {
      if phase.Connected? {
        phase := Disconnecting;
        if inLoop {
          DoShutdownInLoop();
        } else {
          tasks := tasks + [ShutdownTask];
        }
      }
    }

    method DoForceClose()
      requires Valid()
      modifies this`phase, this`tasks
      ensures State() == Next(old(State()), ForceClose)
    {
      if phase.Connected? || phase.Disconnecting? {
        phase := Disconnecting;
        tasks := tasks + [ForceCloseTask];
      }
    }

    // The loop runs the oldest functor of this connection.
    method RunNext(o: Outcome)
      requires Valid() && Enabled(State(), Run(o))
      modifies this, outputBuffer, outputBuffer.data
      ensures Valid() && (outputBuffer.data == old(outputBuffer.data) || fresh(outputBuffer.data))
      ensures State() == Next(old(State()), Run(o))
    {
      hide SendInLoop;
      var task := tasks[0];
      tasks := tasks[1..];
      if task.SendTask? {
        DoSendInLoop(task.message, o);
      } else if task.ShutdownTask? {
        DoShutdownInLoop();
      } else if task.ForceCloseTask? {
        if phase.Connected? || phase.Disconnecting? {
          DoHandleClose();
        }
      }
    }
  }
}
