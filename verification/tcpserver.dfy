// How net/tcpserver.cpp and net/tcpconnection.cpp pass a connection from the
// accept loop to its I/O loop and back until it is destroyed. Every handler and
// every functor is one step of its loop's thread; calls by other threads fall
// between steps; any number of I/O loops, and the accept loop may be one.
module Lifecycles {
  import opened Phases

  const ACCEPT_LOOP: nat := 0
  const MAX_INT: nat := 2147483647

  // How often each stage of the trip happened; `erased` adds up what the map's
  // erase returned.
  datatype Counts = Counts(established: nat, closed: nat, erased: nat, destroyed: nat)

  datatype Conn = Conn(
    loop: nat,
    key: string,
    phase: Phase,
    registered: bool,       // its channel is in the poller of its loop
    interest: bool,         // the channel's mask is not zero
    counts: Counts)

  datatype Task =
    | ConnectEstablished(conn: nat)
    | RemoveConnectionInLoop(conn: nat)
    | ConnectDestroyed(conn: nat)
    | ForceCloseInLoop(conn: nat)
    | SendInLoop(conn: nat)              // these two hold a raw pointer
    | ShutdownInLoop(conn: nat)

  datatype Server = Server(
    name: string,
    ipPort: string,
    nextConnId: nat,
    conns: seq<Conn>,                    // every connection accepted so far
    connections: map<string, nat>,       // connections_
    queues: map<nat, seq<Task>>,         // pending functors of each loop
    fault: bool)                         // an assert has failed

  // ------------------------------------------------------ connection names

  function Digit(d: nat): (c: char)
    requires d < 10
  {
    ('0' as int + d) as char
  }

  function Decimal(n: nat): (s: string)
    ensures s != []
  {
    (if n < 10 then [] else Decimal(n / 10)) + [Digit(n % 10)]
  }

  function Parse(s: string): int {
    if s == [] then 0 else 10 * Parse(s[..|s| - 1]) + (s[|s| - 1] as int - '0' as int)
  }

  lemma {:induction false} ParseDecimal(n: nat)
    ensures Parse(Decimal(n)) == n
  {
    var s := Decimal(n);
    if n >= 10 {
      ParseDecimal(n / 10);
      assert s[..|s| - 1] == Decimal(n / 10);
    } else {
      assert s[..|s| - 1] == [];
    }
  }

  function Pow10(k: nat): (p: nat)
    ensures p > 0
  {
    if k == 0 then 1 else 10 * Pow10(k - 1)
  }

  lemma {:induction false} DecimalLength(n: nat, k: nat)
    requires k > 0
    ensures |Decimal(n)| <= k <==> n < Pow10(k)
    decreases k
  {
    if n >= 10 {
      if k == 1 {
        assert |Decimal(n / 10)| > 0;
      } else {
        DecimalLength(n / 10, k - 1);
      }
    } else {
      assert Pow10(k) >= 10;
    }
  }

  lemma TenDigits(n: nat)
    ensures n <= MAX_INT ==> |Decimal(n)| <= 10
    ensures n >= 1000000000 ==> |Decimal(n)| > 9
  {
    assert Pow10(5) == 100000 && Pow10(9) == 1000000000 && Pow10(10) == 10000000000;
    DecimalLength(n, 10);
    DecimalLength(n, 9);
  }

  // snprintf into a buffer of 64 characters.
  function Truncated(s: string): string {
    if |s| < 64 then s else s[..63]
  }

  function Key(name: string, ipPort: string, id: nat): string {
    name + Truncated("-" + ipPort + "#" + Decimal(id))
  }

  // An IPv6 address and port take at most 51 characters, and then the buffer is
  // just long enough for every connection id.
  lemma KeysDistinct(name: string, ipPort: string, i: nat, j: nat)
    requires |ipPort| <= 51 && i <= MAX_INT && j <= MAX_INT
    requires Key(name, ipPort, i) == Key(name, ipPort, j)
    ensures i == j
  {
    TenDigits(i);
    TenDigits(j);
    var front := "-" + ipPort + "#";
    assert Key(name, ipPort, i)[|name|..][|front|..] == Decimal(i);
    assert Key(name, ipPort, j)[|name|..][|front|..] == Decimal(j);
    ParseDecimal(i);
    ParseDecimal(j);
  }

  lemma LastIsCut(front: string, common: string, last: char)
    requires |front| + |common| >= 63
    ensures Truncated(front + (common + [last])) == (front + common)[..63]
  {
    assert front + (common + [last]) == (front + common) + [last];
  }

  // One character more and two ids share a name.
  lemma LongAddressCollides(name: string, ipPort: string)
    requires |ipPort| > 51
    ensures Key(name, ipPort, 1000000000) == Key(name, ipPort, 1000000001)
  {
    var front, common := "-" + ipPort + "#", Decimal(100000000);
    TenDigits(1000000000);
    assert Decimal(1000000000) == common + ['0'] && Decimal(1000000001) == common + ['1'];
    hide Decimal, Truncated;
    LastIsCut(front, common, '0');
    LastIsCut(front, common, '1');
  }

  // ------------------------------------------------------------ operations

  function Queue(s: Server, l: nat): seq<Task> {
    if l in s.queues then s.queues[l] else []
  }

  function Push(s: Server, l: nat, task: Task): Server {
    s.(queues := s.queues[l := Queue(s, l) + [task]])
  }

  function Pop(s: Server, l: nat): Server
    requires Queue(s, l) != []
  {
    s.(queues := s.queues[l := Queue(s, l)[1..]])
  }

  function Set(s: Server, c: nat, conn: Conn): Server
    requires c < |s.conns|
  {
    s.(conns := s.conns[c := conn])
  }

  function Check(s: Server, condition: bool): Server {
    s.(fault := s.fault || !condition)
  }

  function Established(s: Server, c: nat): (t: Server)
    requires c < |s.conns|
    ensures |t.conns| == |s.conns|
  {
    var x := s.conns[c];
    Set(Check(s, x.phase.Connecting?), c,
        x.(phase := Connected, registered := true, interest := true,
           counts := x.counts.(established := x.counts.established + 1)))
  }

  // A new connection enters the map under a fresh name.
  function Register(s: Server, ioLoop: nat): (t: Server)
    ensures |t.conns| == |s.conns| + 1
  {
    var key := Key(s.name, s.ipPort, s.nextConnId);
    s.(nextConnId := s.nextConnId + 1,
       conns := s.conns + [Conn(ioLoop, key, Connecting, false, false, Counts(0, 0, 0, 0))],
       connections := s.connections[key := |s.conns|])
  }

  function NewConnection(s: Server, ioLoop: nat): (t: Server)
    ensures |t.conns| == |s.conns| + 1
  {
    var c, t := |s.conns|, Register(s, ioLoop);
    if ioLoop == ACCEPT_LOOP then Established(t, c) else Push(t, ioLoop, ConnectEstablished(c))
  }

  function Removed(s: Server, c: nat): (t: Server)
    requires c < |s.conns|
    ensures |t.conns| == |s.conns|
  {
    var x := s.conns[c];
    var n := if x.key in s.connections then 1 else 0;
    var t := Set(Check(s, n == 1), c, x.(counts := x.counts.(erased := x.counts.erased + n)));
    Push(t.(connections := t.connections - {x.key}), x.loop, ConnectDestroyed(c))
  }

  // TcpConnection::handleClose, whose close callback is removeConnection.
  function HandleClose(s: Server, c: nat): (t: Server)
    requires c < |s.conns|
    ensures |t.conns| == |s.conns|
  {
    var x := s.conns[c];
    var t := Set(Check(s, x.phase.Connected? || x.phase.Disconnecting?), c,
                 x.(phase := Disconnected, registered := true, interest := false,
                    counts := x.counts.(closed := x.counts.closed + 1)));
    if x.loop == ACCEPT_LOOP then Removed(t, c) else Push(t, ACCEPT_LOOP, RemoveConnectionInLoop(c))
  }

  function Destroyed(s: Server, c: nat): (t: Server)
    requires c < |s.conns|
    ensures |t.conns| == |s.conns|
  {
    var x := s.conns[c];
    var y := if x.phase.Connected? then x.(phase := Disconnected, registered := true, interest := false) else x;
    Set(Check(s, !y.interest && y.registered), c,
        y.(registered := false, counts := y.counts.(destroyed := y.counts.destroyed + 1)))
  }

  function Perform(s: Server, task: Task): (t: Server)
    requires task.conn < |s.conns|
    ensures |t.conns| == |s.conns|
  {
    match task
    case ConnectEstablished(c) => Established(s, c)
    case RemoveConnectionInLoop(c) => Removed(s, c)
    case ConnectDestroyed(c) => Destroyed(s, c)
    case ForceCloseInLoop(c) =>
      var x := s.conns[c];
      if x.phase.Connected? || x.phase.Disconnecting? then HandleClose(s, c) else s
    case SendInLoop(_) => s
    case ShutdownInLoop(_) => s
  }

  predicate IsRaw(task: Task) {
    task.SendInLoop? || task.ShutdownInLoop?
  }

  datatype Revents = Revents(hup: bool, readable: bool, urgent: bool, rdhup: bool, writable: bool)

  // handleEventWithGuard; `eof` tells whether the read, if there is one,
  // returns 0. The error and write handlers leave the lifecycle alone.
  function HandleEvent(s: Server, c: nat, r: Revents, eof: bool): (t: Server)
    requires c < |s.conns|
    ensures |t.conns| == |s.conns|
  {
    var t := if r.hup && !r.readable then HandleClose(s, c) else s;
    if (r.readable || r.urgent || r.rdhup) && eof then HandleClose(t, c) else t
  }

  function Unsettle(s: Server, c: nat): (t: Server)
    requires c < |s.conns|
    ensures |t.conns| == |s.conns|
  {
    Set(s, c, s.conns[c].(phase := Disconnecting))
  }

  // ------------------------------------------------------------------ runs

  datatype Step =
    | Accept(ioLoop: nat)
    | RunTask(loop: nat)
    | Dispatch(conn: nat, revents: Revents, eof: bool)
    | Send(conn: nat)                    // by a thread other than the loop's
    | Shutdown(conn: nat, inLoop: bool)
    | ForceClose(conn: nat)

  predicate Enabled(s: Server, step: Step) {
    match step
    case Accept(_) => s.nextConnId <= MAX_INT
    case RunTask(l) => Queue(s, l) != [] && Queue(s, l)[0].conn < |s.conns|
    case Dispatch(c, _, _) => c < |s.conns| && s.conns[c].registered && s.conns[c].interest
    case Send(c) => c < |s.conns|
    case Shutdown(c, _) => c < |s.conns|
    case ForceClose(c) => c < |s.conns|
  }

  function Next(s: Server, step: Step): Server
    requires Enabled(s, step)
  {
    match step
    case Accept(ioLoop) => NewConnection(s, ioLoop)
    case RunTask(l) => Perform(Pop(s, l), Queue(s, l)[0])
    case Dispatch(c, r, eof) => HandleEvent(s, c, r, eof)
    case Send(c) => if s.conns[c].phase.Connected? then Push(s, s.conns[c].loop, SendInLoop(c)) else s
    case Shutdown(c, inLoop) =>
      if !s.conns[c].phase.Connected? then s
      else if inLoop then Unsettle(s, c)
      else Push(Unsettle(s, c), s.conns[c].loop, ShutdownInLoop(c))
    case ForceClose(c) =>
      if s.conns[c].phase.Connected? || s.conns[c].phase.Disconnecting?
      then Push(Unsettle(s, c), s.conns[c].loop, ForceCloseInLoop(c)) else s
  }

  function Init(name: string, ipPort: string): Server {
    Server(name, ipPort, 1, [], map[], map[], false)
  }

  predicate IsRun(s: Server, steps: seq<Step>)
    decreases steps
  {
    steps == [] || (Enabled(s, steps[0]) && IsRun(Next(s, steps[0]), steps[1..]))
  }

  function Exec(s: Server, steps: seq<Step>): Server
    requires IsRun(s, steps)
    decreases steps
  {
    if steps == [] then s else Exec(Next(s, steps[0]), steps[1..])
  }

  // The one dispatch that closes a connection twice.
  predicate ClosesTwice(step: Step) {
    && step.Dispatch? && step.eof
    && step.revents.hup && !step.revents.readable && (step.revents.urgent || step.revents.rdhup)
  }

  // ------------------------------------------------------------- invariant

  // How often a functor stands in a queue.
  ghost function Count(s: Server, l: nat, task: Task): nat {
    multiset(Queue(s, l))[task]
  }

  ghost predicate Mapped(s: Server, c: nat)
    requires c < |s.conns|
  {
    s.conns[c].key in s.connections && s.connections[s.conns[c].key] == c
  }

  datatype Tally = Tally(establish: nat, remove: nat, destroy: nat)

  ghost function TallyOf(s: Server, c: nat): Tally
    requires c < |s.conns|
  {
    var l := s.conns[c].loop;
    Tally(Count(s, l, ConnectEstablished(c)), Count(s, ACCEPT_LOOP, RemoveConnectionInLoop(c)),
          Count(s, l, ConnectDestroyed(c)))
  }

  // The five stages of the trip.
  predicate Announced(x: Conn, mapped: bool, t: Tally) {
    x.phase.Connecting? && !x.registered && !x.interest && mapped
    && t == Tally(1, 0, 0) && x.counts == Counts(0, 0, 0, 0)
  }

  predicate Live(x: Conn, mapped: bool, t: Tally) {
    (x.phase.Connected? || x.phase.Disconnecting?) && x.registered && x.interest && mapped
    && t == Tally(0, 0, 0) && x.counts == Counts(1, 0, 0, 0)
  }

  predicate Closed(x: Conn, mapped: bool, t: Tally) {
    x.phase.Disconnected? && x.registered && !x.interest && mapped
    && t == Tally(0, 1, 0) && x.counts == Counts(1, 1, 0, 0)
  }

  predicate Erased(x: Conn, mapped: bool, t: Tally) {
    x.phase.Disconnected? && x.registered && !x.interest && !mapped
    && t == Tally(0, 0, 1) && x.counts == Counts(1, 1, 1, 0)
  }

  predicate Gone(x: Conn, mapped: bool, t: Tally) {
    x.phase.Disconnected? && !x.registered && !x.interest && !mapped
    && t == Tally(0, 0, 0) && x.counts == Counts(1, 1, 1, 1)
  }

  ghost predicate OnTrip(s: Server, c: nat)
    requires c < |s.conns|
  {
    var x, m, t := s.conns[c], Mapped(s, c), TallyOf(s, c);
    Announced(x, m, t) || Live(x, m, t) || Closed(x, m, t) || Erased(x, m, t) || Gone(x, m, t)
  }

  ghost predicate Keyed(s: Server) {
    && |s.ipPort| <= 51
    && s.nextConnId == |s.conns| + 1 && |s.conns| <= MAX_INT
    && (forall c :: 0 <= c < |s.conns| ==> s.conns[c].key == Key(s.name, s.ipPort, c + 1))
    && (forall k :: k in s.connections ==> s.connections[k] < |s.conns| && s.conns[s.connections[k]].key == k)
  }

  // Every functor waits in the loop it belongs to.
  predicate Belongs(s: Server, l: nat, task: Task) {
    && task.conn < |s.conns|
    && (task.RemoveConnectionInLoop? ==> l == ACCEPT_LOOP)
    && (!task.RemoveConnectionInLoop? ==> l == s.conns[task.conn].loop)
  }

  ghost predicate Placed(s: Server) {
    forall l: nat, task :: Count(s, l, task) > 0 ==> Belongs(s, l, task)
  }

  ghost predicate AllOnTrip(s: Server) {
    forall c: nat :: c < |s.conns| ==> OnTrip(s, c)
  }

  ghost predicate Inv(s: Server) {
    Keyed(s) && Placed(s) && AllOnTrip(s)
  }

  // From s to t only connection c and functors about it changed.
  ghost predicate OnlyTouches(s: Server, t: Server, c: nat) {
    && |t.conns| == |s.conns|
    && (forall d: nat :: d < |s.conns| && d != c ==> t.conns[d] == s.conns[d] && Mapped(t, d) == Mapped(s, d))
    && (forall l: nat, task: Task :: task.conn != c ==> Count(t, l, task) == Count(s, l, task))
  }

  ghost predicate OthersOnTrip(s: Server, c: nat) {
    forall d: nat :: d < |s.conns| && d != c ==> OnTrip(s, d)
  }

  lemma Reassemble(s: Server, t: Server, c: nat)
    requires OthersOnTrip(s, c) && (OnlyTouches(s, t, c) || OnlyTouches(t, s, c))
    ensures OthersOnTrip(t, c)
  {
    hide Count, Announced, Live, Closed, Erased, Gone;
    forall d: nat | d < |t.conns| && d != c
      ensures OnTrip(t, d)
    {
      assert OnTrip(s, d);
      assert TallyOf(t, d) == TallyOf(s, d);
    }
  }

  // t has one functor more than s, in the queue of loop l.
  ghost predicate OneMore(s: Server, t: Server, l: nat, task: Task) {
    && t == s.(queues := t.queues)
    && forall m: nat, x :: Count(t, m, x) == Count(s, m, x) + if m == l && x == task then 1 else 0
  }

  lemma PushIsOneMore(s: Server, l: nat, task: Task)
    ensures OneMore(s, Push(s, l, task), l, task)
  {
  }

  lemma PopIsOneLess(s: Server, l: nat)
    requires Queue(s, l) != []
    ensures OneMore(Pop(s, l), s, l, Queue(s, l)[0])
  {
    var q := Queue(s, l);
    assert q == [q[0]] + q[1..];
    assert multiset(q) == multiset{q[0]} + multiset(q[1..]);
  }

  // Rewriting a connection, its name and loop kept, changes nothing else.
  lemma SetFrame(s: Server, c: nat, x: Conn)
    requires c < |s.conns| && x.key == s.conns[c].key && x.loop == s.conns[c].loop
    requires Keyed(s) && Placed(s)
    ensures var t := Set(s, c, x);
      && Keyed(t) && Placed(t) && OnlyTouches(s, t, c)
      && Mapped(t, c) == Mapped(s, c) && TallyOf(t, c) == TallyOf(s, c)
  {
    hide Key;
    var t := Set(s, c, x);
    assert forall l: nat, task :: Count(t, l, task) == Count(s, l, task);
    hide Count;
  }

  function Plus(y: Tally, task: Task): Tally {
    match task
    case ConnectEstablished(_) => y.(establish := y.establish + 1)
    case RemoveConnectionInLoop(_) => y.(remove := y.remove + 1)
    case ConnectDestroyed(_) => y.(destroy := y.destroy + 1)
    case ForceCloseInLoop(_) => y
    case SendInLoop(_) => y
    case ShutdownInLoop(_) => y
  }

  lemma OneMoreFrame(s: Server, t: Server, l: nat, task: Task)
    requires OneMore(s, t, l, task) && Placed(s) && Belongs(s, l, task)
    ensures Placed(t) && OnlyTouches(s, t, task.conn) && Mapped(t, task.conn) == Mapped(s, task.conn)
    ensures TallyOf(t, task.conn) == Plus(TallyOf(s, task.conn), task)
  {
    hide Count;
  }

  lemma OneLessFrame(s: Server, t: Server, l: nat, task: Task)
    requires OneMore(s, t, l, task) && Placed(t)
    ensures Belongs(s, l, task) && Placed(s)
  {
    assert Count(t, l, task) > 0;
    hide Count;
    forall m: nat, x | Count(s, m, x) > 0
      ensures Belongs(s, m, x)
    {
      assert Count(t, m, x) > 0;
    }
  }

  lemma PushFrame(s: Server, l: nat, task: Task)
    requires Keyed(s) && Placed(s) && Belongs(s, l, task)
    ensures var t, c := Push(s, l, task), task.conn;
      && Keyed(t) && Placed(t) && OnlyTouches(s, t, c) && Mapped(t, c) == Mapped(s, c)
      && TallyOf(t, c) == Plus(TallyOf(s, c), task)
  {
    hide Key;
    PushIsOneMore(s, l, task);
    hide OneMore, Placed, OnlyTouches, Mapped;
    OneMoreFrame(s, Push(s, l, task), l, task);
  }

  lemma PopFrame(s: Server, l: nat)
    requires Keyed(s) && Placed(s) && Queue(s, l) != []
    ensures var t, task := Pop(s, l), Queue(s, l)[0];
      && Belongs(s, l, task)
      && Keyed(t) && Placed(t) && OnlyTouches(t, s, task.conn) && Mapped(t, task.conn) == Mapped(s, task.conn)
      && TallyOf(s, task.conn) == Plus(TallyOf(t, task.conn), task)
  {
    hide Key;
    PopIsOneLess(s, l);
    hide OneMore, Placed, OnlyTouches, Mapped;
    OneLessFrame(Pop(s, l), s, l, Queue(s, l)[0]);
    OneMoreFrame(Pop(s, l), s, l, Queue(s, l)[0]);
  }

  // ------------------------------------------------- each step keeps it

  lemma FreshKey(s: Server)
    requires Keyed(s) && s.nextConnId <= MAX_INT
    ensures Key(s.name, s.ipPort, s.nextConnId) !in s.connections
    ensures forall c :: 0 <= c < |s.conns| ==> s.conns[c].key != Key(s.name, s.ipPort, s.nextConnId)
  {
    forall c | 0 <= c < |s.conns|
      ensures s.conns[c].key != Key(s.name, s.ipPort, s.nextConnId)
    {
      if Key(s.name, s.ipPort, c + 1) == Key(s.name, s.ipPort, s.nextConnId) {
        KeysDistinct(s.name, s.ipPort, c + 1, s.nextConnId);
        assert false;
      }
    }
  }

  lemma OwnKey(s: Server, c: nat, d: nat)
    requires Keyed(s) && c < |s.conns| && d < |s.conns| && s.conns[c].key == s.conns[d].key
    ensures c == d
  {
    KeysDistinct(s.name, s.ipPort, c + 1, d + 1);
  }

  lemma RegisterKeyed(s: Server, ioLoop: nat)
    requires Keyed(s) && s.nextConnId <= MAX_INT
    ensures Keyed(Register(s, ioLoop))
  {
    FreshKey(s);
    var t, key := Register(s, ioLoop), Key(s.name, s.ipPort, s.nextConnId);
    assert t.conns[|s.conns|].key == key && t.connections == s.connections[key := |s.conns|];
    hide Key, Register;
    forall c | 0 <= c < |t.conns|
      ensures t.conns[c].key == Key(t.name, t.ipPort, c + 1)
    {
      assert c < |s.conns| ==> t.conns[c] == s.conns[c];
    }
  }

  // Everything else as before; the newcomer is in the map and owes nothing yet.
  lemma RegisterTouches(s: Server, ioLoop: nat)
    requires Keyed(s) && Placed(s) && s.nextConnId <= MAX_INT
    ensures var t, c := Register(s, ioLoop), |s.conns|;
      && Placed(t) && Mapped(t, c) && TallyOf(t, c) == Tally(0, 0, 0)
      && t.fault == s.fault && t.conns[c] == Conn(ioLoop, t.conns[c].key, Connecting, false, false, Counts(0, 0, 0, 0))
      && (forall l: nat, task :: Count(t, l, task) == Count(s, l, task))
      && (forall d: nat :: d < c ==> t.conns[d] == s.conns[d] && Mapped(t, d) == Mapped(s, d))
  {
    RegisterMaps(s, ioLoop);
    var t := Register(s, ioLoop);
    assert forall l: nat, task :: Count(t, l, task) == Count(s, l, task);
    hide Key, Count, Keyed, Mapped;
    assert forall l: nat, task: Task :: task.conn == |s.conns| ==> Count(s, l, task) == 0;
  }

  lemma RegisterMaps(s: Server, ioLoop: nat)
    requires Keyed(s) && s.nextConnId <= MAX_INT
    ensures var t, c := Register(s, ioLoop), |s.conns|;
      && Mapped(t, c)
      && (forall d: nat :: d < c ==> t.conns[d] == s.conns[d] && Mapped(t, d) == Mapped(s, d))
  {
    FreshKey(s);
    hide Key, Keyed;
  }

  lemma RegisterOthers(s: Server, ioLoop: nat)
    requires Inv(s) && s.nextConnId <= MAX_INT
    ensures OthersOnTrip(Register(s, ioLoop), |s.conns|)
  {
    var t := Register(s, ioLoop);
    RegisterTouches(s, ioLoop);
    hide Count, Keyed, Placed, Mapped, Register, Announced, Live, Closed, Erased, Gone;
    forall d: nat | d < |t.conns| && d != |s.conns|
      ensures OnTrip(t, d)
    {
      assert OnTrip(s, d);
      assert TallyOf(t, d) == TallyOf(s, d);
    }
  }

  lemma AcceptKeeps(s: Server, ioLoop: nat)
    requires Inv(s) && s.nextConnId <= MAX_INT
    ensures Inv(NewConnection(s, ioLoop)) && NewConnection(s, ioLoop).fault == s.fault
  {
    var c, r, t := |s.conns|, Register(s, ioLoop), NewConnection(s, ioLoop);
    RegisterKeyed(s, ioLoop);
    RegisterTouches(s, ioLoop);
    RegisterOthers(s, ioLoop);
    assert Base(r, c) by {
      hide Count, OnTrip, Mapped, Register;
    }
    hide Base, Mapped, TallyOf, Register;
    if ioLoop == ACCEPT_LOOP {
      assert t == Set(r, c, t.conns[c]);
      SetBase(r, c, t.conns[c]);
    } else {
      PushBase(r, ioLoop, ConnectEstablished(c));
    }
    WholeBase(t, c);
  }

  // All but connection c are on their trip; c is where its functor, if one was
  // popped, left it.
  ghost predicate Base(s: Server, c: nat) {
    Keyed(s) && Placed(s) && c < |s.conns| && OthersOnTrip(s, c)
  }

  lemma SetBase(s: Server, c: nat, x: Conn)
    requires Base(s, c) && x.key == s.conns[c].key && x.loop == s.conns[c].loop
    ensures var t := Set(s, c, x);
      Base(t, c) && Mapped(t, c) == Mapped(s, c) && TallyOf(t, c) == TallyOf(s, c)
  {
    SetFrame(s, c, x);
    hide Count, Keyed, Placed, Mapped, OthersOnTrip, OnlyTouches;
    Reassemble(s, Set(s, c, x), c);
  }

  lemma PushBase(s: Server, l: nat, task: Task)
    requires Base(s, task.conn) && Belongs(s, l, task)
    ensures var t, c := Push(s, l, task), task.conn;
      Base(t, c) && Mapped(t, c) == Mapped(s, c) && TallyOf(t, c) == Plus(TallyOf(s, c), task)
  {
    PushFrame(s, l, task);
    hide Count, Keyed, Placed, Mapped, OthersOnTrip, OnlyTouches;
    Reassemble(s, Push(s, l, task), task.conn);
  }

  lemma EraseBase(s: Server, c: nat)
    requires Base(s, c)
    ensures var t := s.(connections := s.connections - {s.conns[c].key});
      Base(t, c) && !Mapped(t, c) && TallyOf(t, c) == TallyOf(s, c)
  {
    var t := s.(connections := s.connections - {s.conns[c].key});
    assert forall l: nat, task :: Count(t, l, task) == Count(s, l, task);
    assert Keyed(t);
    forall d: nat | d < |s.conns| && d != c
      ensures Mapped(t, d) == Mapped(s, d)
    {
      if s.conns[d].key == s.conns[c].key {
        OwnKey(s, c, d);
        assert false;
      }
    }
    hide Count, Keyed, Key, OthersOnTrip;
    assert OnlyTouches(s, t, c);
    Reassemble(s, t, c);
  }

  lemma EstablishedKeeps(s: Server, c: nat)
    requires Base(s, c) && Announced(s.conns[c], Mapped(s, c), Plus(TallyOf(s, c), ConnectEstablished(c)))
    ensures Inv(Established(s, c)) && Established(s, c).fault == s.fault
  {
    var t := Established(s, c);
    assert t == Set(s, c, t.conns[c]);
    SetBase(s, c, t.conns[c]);
    hide Base, Mapped, TallyOf;
    assert Live(t.conns[c], Mapped(t, c), TallyOf(t, c));
    WholeBase(t, c);
  }

  lemma WholeBase(s: Server, c: nat)
    requires Base(s, c) && OnTrip(s, c)
    ensures Inv(s)
  {
    hide Keyed, Placed, OnTrip;
  }

  lemma DestroyedKeeps(s: Server, c: nat)
    requires Base(s, c) && Erased(s.conns[c], Mapped(s, c), Plus(TallyOf(s, c), ConnectDestroyed(c)))
    ensures Inv(Destroyed(s, c)) && Destroyed(s, c).fault == s.fault
  {
    var t := Destroyed(s, c);
    assert t == Set(s, c, t.conns[c]);
    SetBase(s, c, t.conns[c]);
    hide Base, Mapped, TallyOf;
    assert Gone(t.conns[c], Mapped(t, c), TallyOf(t, c));
    WholeBase(t, c);
  }

  lemma RemovedKeeps(s: Server, c: nat)
    requires Base(s, c) && Closed(s.conns[c], Mapped(s, c), Plus(TallyOf(s, c), RemoveConnectionInLoop(c)))
    ensures Inv(Removed(s, c)) && Removed(s, c).fault == s.fault
  {
    var x := s.conns[c];
    assert x.key in s.connections;
    var t := Set(s, c, x.(counts := x.counts.(erased := 1)));
    SetBase(s, c, t.conns[c]);
    EraseBase(t, c);
    var u := t.(connections := t.connections - {x.key});
    PushBase(u, x.loop, ConnectDestroyed(c));
    var v := Push(u, x.loop, ConnectDestroyed(c));
    assert v == Removed(s, c);
    hide Base, Mapped, TallyOf, Removed;
    assert Erased(v.conns[c], Mapped(v, c), TallyOf(v, c));
    WholeBase(v, c);
  }

  lemma HandleCloseKeeps(s: Server, c: nat)
    requires Base(s, c) && Live(s.conns[c], Mapped(s, c), TallyOf(s, c))
    ensures Inv(HandleClose(s, c)) && HandleClose(s, c).fault == s.fault
    ensures HandleClose(s, c).conns[c].phase.Disconnected?
  {
    var x := s.conns[c];
    var t := Set(s, c, x.(phase := Disconnected, registered := true, interest := false,
                          counts := x.counts.(closed := 1)));
    SetBase(s, c, t.conns[c]);
    hide Base, Mapped, TallyOf;
    if x.loop == ACCEPT_LOOP {
      RemovedKeeps(t, c);
    } else {
      PushBase(t, ACCEPT_LOOP, RemoveConnectionInLoop(c));
      var u := Push(t, ACCEPT_LOOP, RemoveConnectionInLoop(c));
      assert Closed(u.conns[c], Mapped(u, c), TallyOf(u, c));
      WholeBase(u, c);
    }
  }

  lemma InvBase(s: Server, c: nat)
    requires Inv(s) && c < |s.conns|
    ensures Base(s, c) && OnTrip(s, c)
  {
    hide Keyed, Placed, OnTrip;
  }

  lemma PopBase(s: Server, l: nat)
    requires Inv(s) && Queue(s, l) != []
    ensures var t, task := Pop(s, l), Queue(s, l)[0];
      && Belongs(s, l, task) && Base(t, task.conn) && t.conns == s.conns && OnTrip(s, task.conn)
      && Mapped(t, task.conn) == Mapped(s, task.conn)
      && TallyOf(s, task.conn) == Plus(TallyOf(t, task.conn), task)
  {
    PopFrame(s, l);
    var task := Queue(s, l)[0];
    hide Count, Keyed, Placed, Mapped, OnlyTouches, OnTrip;
    InvBase(s, task.conn);
    Reassemble(s, Pop(s, l), task.conn);
  }

  lemma RunTaskKeeps(s: Server, l: nat)
    requires Inv(s) && Queue(s, l) != []
    ensures Enabled(s, RunTask(l)) && Inv(Next(s, RunTask(l))) && Next(s, RunTask(l)).fault == s.fault
  {
    PopBase(s, l);
    var t, task := Pop(s, l), Queue(s, l)[0];
    hide Base, Mapped, TallyOf, Established, Removed, Destroyed, HandleClose;
    match task
    case ConnectEstablished(c) => EstablishedKeeps(t, c);
    case RemoveConnectionInLoop(c) => RemovedKeeps(t, c);
    case ConnectDestroyed(c) => DestroyedKeeps(t, c);
    case ForceCloseInLoop(c) =>
      if t.conns[c].phase.Connected? || t.conns[c].phase.Disconnecting? {
        HandleCloseKeeps(t, c);
      } else {
        WholeBase(t, c);
      }
    case SendInLoop(c) => WholeBase(t, c);
    case ShutdownInLoop(c) => WholeBase(t, c);
  }

  lemma DispatchKeeps(s: Server, step: Step)
    requires Inv(s) && step.Dispatch? && Enabled(s, step) && !ClosesTwice(step)
    ensures Inv(Next(s, step)) && Next(s, step).fault == s.fault
  {
    InvBase(s, step.conn);
    hide Base, Mapped, TallyOf, HandleClose;
    HandleCloseKeeps(s, step.conn);
  }

  lemma UnsettledKeeps(s: Server, c: nat)
    requires Inv(s) && c < |s.conns| && (s.conns[c].phase.Connected? || s.conns[c].phase.Disconnecting?)
    ensures Inv(Unsettle(s, c))
  {
    InvBase(s, c);
    var t := Unsettle(s, c);
    SetBase(s, c, t.conns[c]);
    hide Base, Mapped, TallyOf;
    assert Live(t.conns[c], Mapped(t, c), TallyOf(t, c));
    WholeBase(t, c);
  }

  lemma CallQueuedKeeps(s: Server, task: Task)
    requires Inv(s) && task.conn < |s.conns| && (task.ForceCloseInLoop? || IsRaw(task))
    ensures Inv(Push(s, s.conns[task.conn].loop, task))
  {
    var c := task.conn;
    InvBase(s, c);
    PushBase(s, s.conns[c].loop, task);
    hide Base, Mapped, TallyOf;
    WholeBase(Push(s, s.conns[c].loop, task), c);
  }

  lemma CallKeeps(s: Server, step: Step)
    requires Inv(s) && (step.Send? || step.Shutdown? || step.ForceClose?) && Enabled(s, step)
    ensures Inv(Next(s, step)) && Next(s, step).fault == s.fault
  {
    var c := step.conn;
    hide Inv;
    CallQueuedKeeps(s, SendInLoop(c));
    if s.conns[c].phase.Connected? || s.conns[c].phase.Disconnecting? {
      UnsettledKeeps(s, c);
      CallQueuedKeeps(Unsettle(s, c), ForceCloseInLoop(c));
      CallQueuedKeeps(Unsettle(s, c), ShutdownInLoop(c));
    }
  }

  lemma StepKeepsInv(s: Server, step: Step)
    requires Inv(s) && Enabled(s, step) && !ClosesTwice(step)
    ensures Inv(Next(s, step)) && Next(s, step).fault == s.fault
  {
    hide Inv;
    match step
    case Accept(ioLoop) => AcceptKeeps(s, ioLoop);
    case RunTask(l) => RunTaskKeeps(s, l);
    case Dispatch(_, _, _) => DispatchKeeps(s, step);
    case Send(_) => CallKeeps(s, step);
    case Shutdown(_, _) => CallKeeps(s, step);
    case ForceClose(_) => CallKeeps(s, step);
  }

  lemma InitInv(name: string, ipPort: string)
    requires |ipPort| <= 51
    ensures Inv(Init(name, ipPort))
  {
  }

  lemma FaultSticks(s: Server, step: Step)
    requires Enabled(s, step)
    ensures s.fault ==> Next(s, step).fault
  {
  }

  lemma ClosingTwiceFaults(s: Server, step: Step)
    requires Inv(s) && Enabled(s, step) && ClosesTwice(step)
    ensures Next(s, step).fault
  {
    InvBase(s, step.conn);
    hide Base, Mapped, TallyOf, HandleClose;
    HandleCloseKeeps(s, step.conn);
    SecondCloseFaults(HandleClose(s, step.conn), step.conn);
  }

  lemma SecondCloseFaults(s: Server, c: nat)
    requires c < |s.conns| && s.conns[c].phase.Disconnected?
    ensures HandleClose(s, c).fault
  {
  }

  // ------------------------------------------------------------- theorems

  predicate NeverClosesTwice(steps: seq<Step>) {
    forall i :: 0 <= i < |steps| ==> !ClosesTwice(steps[i])
  }

  // An assert of the trip fails in a run if and only if some dispatch reports
  // HUP without IN but with PRI or RDHUP and its read returns 0.
  lemma {:induction false} AssertsHold(s: Server, steps: seq<Step>)
    requires Inv(s) && !s.fault && IsRun(s, steps)
    ensures Exec(s, steps).fault <==> !NeverClosesTwice(steps)
    ensures NeverClosesTwice(steps) ==> Inv(Exec(s, steps))
    decreases steps
  {
    if steps != [] {
      hide Inv, Next, Enabled, ClosesTwice;
      var n, rest := Next(s, steps[0]), steps[1..];
      assert forall i :: 0 <= i < |rest| ==> rest[i] == steps[i + 1];
      if ClosesTwice(steps[0]) {
        ClosingTwiceFaults(s, steps[0]);
        FaultStays(n, rest);
      } else {
        StepKeepsInv(s, steps[0]);
        AssertsHold(n, rest);
        if NeverClosesTwice(rest) {
          assert forall i :: 0 < i < |steps| ==> steps[i] == rest[i - 1];
          assert NeverClosesTwice(steps);
        } else {
          var i :| 0 <= i < |rest| && ClosesTwice(rest[i]);
          assert ClosesTwice(steps[i + 1]);
        }
      }
    }
  }

  lemma {:induction false} FaultStays(s: Server, steps: seq<Step>)
    requires s.fault && IsRun(s, steps)
    ensures Exec(s, steps).fault
    decreases steps
  {
    if steps != [] {
      hide Next;
      FaultSticks(s, steps[0]);
      FaultStays(Next(s, steps[0]), steps[1..]);
    }
  }

  lemma ReachableInv(name: string, ipPort: string, steps: seq<Step>)
    requires |ipPort| <= 51 && IsRun(Init(name, ipPort), steps) && NeverClosesTwice(steps)
    ensures Inv(Exec(Init(name, ipPort), steps)) && !Exec(Init(name, ipPort), steps).fault
  {
    InitInv(name, ipPort);
    AssertsHold(Init(name, ipPort), steps);
  }

  // Each connection is established once or its functor waits; closed at most
  // once; then erased once, with erase returning 1, or that functor waits; then
  // destroyed once or that one waits. No other functor about it exists.
  lemma ExactlyOnce(name: string, ipPort: string, steps: seq<Step>, c: nat)
    requires |ipPort| <= 51 && IsRun(Init(name, ipPort), steps) && NeverClosesTwice(steps)
    requires c < |Exec(Init(name, ipPort), steps).conns|
    ensures var s := Exec(Init(name, ipPort), steps); var n := s.conns[c].counts;
      && n.established + Count(s, s.conns[c].loop, ConnectEstablished(c)) == 1
      && n.closed <= n.established
      && n.erased + Count(s, ACCEPT_LOOP, RemoveConnectionInLoop(c)) == n.closed
      && n.destroyed + Count(s, s.conns[c].loop, ConnectDestroyed(c)) == n.erased
      && (Mapped(s, c) <==> n.erased == 0)
  {
    ReachableInv(name, ipPort, steps);
    hide IsRun, Exec, Count, Mapped;
    assert OnTrip(Exec(Init(name, ipPort), steps), c);
  }

  // The channel is in the poller exactly from connectEstablished to
  // connectDestroyed, with interest exactly until handleClose, which is where
  // the connection becomes disconnected.
  lemma InPollerBetween(name: string, ipPort: string, steps: seq<Step>, c: nat)
    requires |ipPort| <= 51 && IsRun(Init(name, ipPort), steps) && NeverClosesTwice(steps)
    requires c < |Exec(Init(name, ipPort), steps).conns|
    ensures var x := Exec(Init(name, ipPort), steps).conns[c];
      && (x.registered <==> x.counts.established == 1 && x.counts.destroyed == 0)
      && (x.interest <==> x.counts.established == 1 && x.counts.closed == 0)
      && (x.phase.Disconnected? <==> x.counts.closed == 1)
  {
    ReachableInv(name, ipPort, steps);
    hide IsRun, Exec, Count, Mapped;
    assert OnTrip(Exec(Init(name, ipPort), steps), c);
  }

  // ------------------------------------------------- what each step is for

  // handleEventWithGuard closes a connection if and only if it reports HUP
  // without IN, or IN, PRI or RDHUP with a read of 0; any other event leaves the
  // whole server as it was.
  lemma DispatchClosesIff(s: Server, step: Step)
    requires Inv(s) && step.Dispatch? && Enabled(s, step) && !ClosesTwice(step)
    ensures var t, c := Next(s, step), step.conn;
      && (t.conns[c].counts.closed == 1 <==> EndsOn(step.revents, step.eof))
      && (t.conns[c].phase.Disconnected? <==> EndsOn(step.revents, step.eof))
      && (!EndsOn(step.revents, step.eof) ==> t == s)
  {
    assert OnTrip(s, step.conn);
  }

  predicate EndsOn(r: Revents, eof: bool) {
    (r.hup && !r.readable) || ((r.readable || r.urgent || r.rdhup) && eof)
  }

  // The steps that end connection c: such an event, or its forceCloseInLoop
  // once it is established.
  predicate Ends(s: Server, step: Step, c: nat) {
    && c < |s.conns|
    && match step
       case Dispatch(d, r, eof) => d == c && EndsOn(r, eof)
       case RunTask(l) =>
         Queue(s, l) != [] && Queue(s, l)[0] == ForceCloseInLoop(c) && !s.conns[c].phase.Connecting?
       case _ => false
  }

  predicate Ended(s: Server, steps: seq<Step>, c: nat)
    requires IsRun(s, steps)
    decreases steps
  {
    steps != [] && (Ends(s, steps[0], c) || Ended(Next(s, steps[0]), steps[1..], c))
  }

  lemma StepClosesIff(s: Server, step: Step, c: nat)
    requires Inv(s) && Enabled(s, step) && !ClosesTwice(step) && c < |Next(s, step).conns|
    ensures Next(s, step).conns[c].counts.closed == 1
       <==> (c < |s.conns| && s.conns[c].counts.closed == 1) || Ends(s, step, c)
  {
    hide Perform, Key, HandleEvent;
    if c < |s.conns| {
      assert OnTrip(s, c);
      hide Inv, Count, Mapped;
      match step {
        case RunTask(l) => PerformCloses(Pop(s, l), Queue(s, l)[0], c);
        case Dispatch(_, _, _) => DispatchCloses(s, step, c);
        case _ =>
      }
    }
  }

  lemma PerformCloses(s: Server, task: Task, c: nat)
    requires task.conn < |s.conns| && c < |s.conns|
    ensures var x := s.conns[c];
      Perform(s, task).conns[c].counts.closed
      == if task == ForceCloseInLoop(c) && (x.phase.Connected? || x.phase.Disconnecting?)
         then x.counts.closed + 1 else x.counts.closed
  {
    CloseCounts(s, task.conn, c);
    hide HandleClose;
  }

  lemma DispatchCloses(s: Server, step: Step, c: nat)
    requires step.Dispatch? && Enabled(s, step) && !ClosesTwice(step) && c < |s.conns|
    ensures Next(s, step).conns[c].counts.closed
      == if c == step.conn && EndsOn(step.revents, step.eof) then s.conns[c].counts.closed + 1
         else s.conns[c].counts.closed
  {
    CloseCounts(s, step.conn, c);
    hide HandleClose;
  }

  lemma CloseCounts(s: Server, c: nat, d: nat)
    requires c < |s.conns| && d < |s.conns|
    ensures HandleClose(s, c).conns[d].counts.closed == s.conns[d].counts.closed + if d == c then 1 else 0
  {
  }

  // In every run a connection is closed if and only if one of its steps says so.
  lemma {:induction false} ClosedIffEnded(s: Server, steps: seq<Step>, c: nat)
    requires Inv(s) && IsRun(s, steps) && NeverClosesTwice(steps) && c < |Exec(s, steps).conns|
    ensures Exec(s, steps).conns[c].counts.closed == 1
       <==> (c < |s.conns| && s.conns[c].counts.closed == 1) || Ended(s, steps, c)
    decreases steps
  {
    if steps != [] {
      hide Inv, Next, Enabled, ClosesTwice, Ends;
      assert !ClosesTwice(steps[0]);
      var n, rest := Next(s, steps[0]), steps[1..];
      StepKeepsInv(s, steps[0]);
      assert forall i :: 0 <= i < |rest| ==> rest[i] == steps[i + 1];
      ClosedIffEnded(n, rest, c);
      if c < |n.conns| {
        StepClosesIff(s, steps[0], c);
      } else {
        NoneBefore(s, steps[0], c);
      }
    }
  }

  lemma NoneBefore(s: Server, step: Step, c: nat)
    requires Enabled(s, step) && c >= |Next(s, step).conns|
    ensures c >= |s.conns| && !Ends(s, step, c)
  {
  }

  // A new connection belongs to the loop it was given, stands in the map under
  // its name, and is established at once in the accept loop and by one queued
  // functor elsewhere; no other connection changes.
  lemma AcceptPlaces(s: Server, ioLoop: nat)
    requires Inv(s) && Enabled(s, Accept(ioLoop))
    ensures var t, c := Next(s, Accept(ioLoop)), |s.conns|;
      && t.conns[..c] == s.conns && |t.conns| == c + 1
      && t.conns[c].loop == ioLoop && t.conns[c].key == Key(s.name, s.ipPort, c + 1) && Mapped(t, c)
      && t.conns[c].counts.established == (if ioLoop == ACCEPT_LOOP then 1 else 0)
      && Queue(t, ioLoop)
      == Queue(s, ioLoop) + (if ioLoop == ACCEPT_LOOP then [] else [ConnectEstablished(c)])
      && forall l: nat :: l != ioLoop ==> Queue(t, l) == Queue(s, l)
  {
    hide Key;
  }

  // connectDestroyed of a connection that is still connected, as the destructor
  // of the server calls it, disconnects it before the channel is removed.
  lemma DestroyedDisconnects(s: Server, c: nat)
    requires Inv(s) && c < |s.conns| && !s.conns[c].phase.Connecting?
    ensures var t := Destroyed(s, c);
      && (s.conns[c].phase.Connected? ==>
            t.conns[c].phase.Disconnected? && !t.conns[c].interest && t.fault == s.fault)
      && (!s.conns[c].phase.Connected? ==> t.conns[c].phase == s.conns[c].phase)
      && !t.conns[c].registered && t.conns[c].counts.destroyed == s.conns[c].counts.destroyed + 1
  {
    assert OnTrip(s, c);
  }

  // What a call queues, in the connection's own loop and behind what waits there.
  function Queued(s: Server, step: Step): seq<Task>
    requires Enabled(s, step)
  {
    match step
    case Send(c) => if s.conns[c].phase.Connected? then [SendInLoop(c)] else []
    case Shutdown(c, inLoop) =>
      if s.conns[c].phase.Connected? && !inLoop then [ShutdownInLoop(c)] else []
    case ForceClose(c) =>
      if s.conns[c].phase.Connected? || s.conns[c].phase.Disconnecting? then [ForceCloseInLoop(c)] else []
    case _ => []
  }

  // A call changes at most the state of its connection, from connected to
  // disconnecting, and queues at most its own functor.
  lemma CallEffect(s: Server, step: Step)
    requires (step.Send? || step.Shutdown? || step.ForceClose?) && Enabled(s, step)
    ensures var t, c := Next(s, step), step.conn;
      && |t.conns| == |s.conns|
      && t.conns[c] == s.conns[c].(phase := t.conns[c].phase)
      && t.conns[c].phase == (if s.conns[c].phase.Connected? && !step.Send? then Disconnecting else s.conns[c].phase)
      && (forall d :: 0 <= d < |s.conns| && d != c ==> t.conns[d] == s.conns[d])
      && t == s.(conns := t.conns, queues := t.queues)
    ensures var t, l := Next(s, step), s.conns[step.conn].loop;
      && Queue(t, l) == Queue(s, l) + Queued(s, step)
      && (forall m: nat :: m != l ==> Queue(t, m) == Queue(s, m))
  {
    CallQueues(s, step);
    hide Queue;
  }

  lemma CallQueues(s: Server, step: Step)
    requires (step.Send? || step.Shutdown? || step.ForceClose?) && Enabled(s, step)
    ensures var t, l := Next(s, step), s.conns[step.conn].loop;
      && Queue(t, l) == Queue(s, l) + Queued(s, step)
      && (forall m: nat :: m != l ==> Queue(t, m) == Queue(s, m))
  {
  }

  // The shared pointers the library itself keeps to a connection.
  ghost predicate Held(s: Server, c: nat)
    requires c < |s.conns|
  {
    Mapped(s, c) || exists l: nat, task :: Count(s, l, task) > 0 && task.conn == c
  }

  // A channel in a poller never dangles, and a connection the library lets go
  // of is disconnected, out of its poller and through with every stage.
  lemma ReleasedWhenDone(name: string, ipPort: string, steps: seq<Step>, c: nat)
    requires |ipPort| <= 51 && IsRun(Init(name, ipPort), steps) && NeverClosesTwice(steps)
    requires c < |Exec(Init(name, ipPort), steps).conns|
    ensures var s := Exec(Init(name, ipPort), steps); var x := s.conns[c];
      && (x.registered ==> Held(s, c))
      && (!Held(s, c) ==> x.phase.Disconnected? && !x.registered && x.counts == Counts(1, 1, 1, 1))
  {
    ReachableInv(name, ipPort, steps);
    hide IsRun, Exec, Count, Mapped;
    var s := Exec(Init(name, ipPort), steps);
    assert OnTrip(s, c);
    if Erased(s.conns[c], Mapped(s, c), TallyOf(s, c)) {
      assert Count(s, s.conns[c].loop, ConnectDestroyed(c)) > 0;
    }
  }

  // The next connection's name is not in the map and was never used.
  lemma NamesAreFresh(name: string, ipPort: string, steps: seq<Step>)
    requires |ipPort| <= 51 && IsRun(Init(name, ipPort), steps) && NeverClosesTwice(steps)
    requires Exec(Init(name, ipPort), steps).nextConnId <= MAX_INT
    ensures var s := Exec(Init(name, ipPort), steps); var key := Key(s.name, s.ipPort, s.nextConnId);
      key !in s.connections && forall c :: 0 <= c < |s.conns| ==> s.conns[c].key != key
  {
    ReachableInv(name, ipPort, steps);
    hide IsRun, Exec, Key;
    FreshKey(Exec(Init(name, ipPort), steps));
  }

  // A connection's state never moves backwards; its loop and name stay.
  ghost predicate Forward(s: Server, t: Server) {
    && |t.conns| >= |s.conns|
    && forall c: nat :: c < |s.conns| ==>
         && s.conns[c].phase.Rank() <= t.conns[c].phase.Rank()
         && t.conns[c].loop == s.conns[c].loop && t.conns[c].key == s.conns[c].key
  }

  lemma CloseMovesForward(s: Server, c: nat)
    requires c < |s.conns|
    ensures Forward(s, HandleClose(s, c))
  {
  }

  lemma PerformMovesForward(s: Server, task: Task)
    requires task.conn < |s.conns| && (task.ConnectEstablished? ==> s.conns[task.conn].phase.Connecting?)
    ensures Forward(s, Perform(s, task))
  {
    hide HandleClose;
    CloseMovesForward(s, task.conn);
  }

  lemma PhasesMoveForward(s: Server, step: Step)
    requires Inv(s) && Enabled(s, step) && !ClosesTwice(step)
    ensures Forward(s, Next(s, step))
  {
    hide Inv, Base, Mapped, TallyOf, Key, Perform, HandleClose;
    match step
    case RunTask(l) =>
      PopBase(s, l);
      PerformMovesForward(Pop(s, l), Queue(s, l)[0]);
    case Dispatch(c, _, _) => CloseMovesForward(s, c);
    case _ =>
  }

  // ------------------------------------------------- functors with raw pointers

  // No functor with a raw pointer stands behind the connectDestroyed of its
  // connection.
  ghost predicate RawFirst(q: seq<Task>) {
    forall i, j :: 0 <= i < j < |q| && q[i].ConnectDestroyed? && IsRaw(q[j]) ==> q[i].conn != q[j].conn
  }

  ghost predicate RawRegistered(s: Server, l: nat) {
    forall i :: 0 <= i < |Queue(s, l)| && IsRaw(Queue(s, l)[i]) ==>
      Queue(s, l)[i].conn < |s.conns| && s.conns[Queue(s, l)[i].conn].registered
  }

  ghost predicate RawInv(s: Server) {
    forall l: nat :: RawFirst(Queue(s, l)) && RawRegistered(s, l)
  }

  // t adds functors without raw pointers and unregisters nobody.
  ghost predicate Extends(s: Server, t: Server) {
    && |t.conns| >= |s.conns|
    && (forall c: nat :: c < |s.conns| && s.conns[c].registered ==> t.conns[c].registered)
    && (forall l: nat :: Lengthens(Queue(s, l), Queue(t, l)))
  }

  ghost predicate Lengthens(q: seq<Task>, r: seq<Task>) {
    && |q| <= |r| && (forall i :: 0 <= i < |q| ==> r[i] == q[i])
    && (forall i :: |q| <= i < |r| ==> !IsRaw(r[i]))
  }

  lemma ExtendsKeepsRaw(s: Server, t: Server)
    requires RawInv(s) && Extends(s, t)
    ensures RawInv(t)
  {
    hide Queue;
    forall l: nat
      ensures RawFirst(Queue(t, l)) && RawRegistered(t, l)
    {
      assert RawFirst(Queue(s, l)) && RawRegistered(s, l) && Lengthens(Queue(s, l), Queue(t, l));
    }
  }

  lemma PushExtends(s: Server, l: nat, task: Task)
    requires !IsRaw(task)
    ensures Extends(s, Push(s, l, task))
  {
  }

  // The functor queues are the same, and nobody is unregistered.
  lemma SetExtends(s: Server, t: Server)
    requires t.queues == s.queues && |t.conns| == |s.conns|
    requires forall c: nat :: c < |s.conns| && s.conns[c].registered ==> t.conns[c].registered
    ensures Extends(s, t)
  {
  }

  lemma ExtendsTwice(s: Server, t: Server, u: Server)
    requires Extends(s, t) && Extends(t, u)
    ensures Extends(s, u)
  {
    hide Queue;
    forall l: nat
      ensures Lengthens(Queue(s, l), Queue(u, l))
    {
      assert Lengthens(Queue(s, l), Queue(t, l)) && Lengthens(Queue(t, l), Queue(u, l));
    }
  }

  lemma RemovedExtends(s: Server, c: nat)
    requires c < |s.conns|
    ensures Extends(s, Removed(s, c))
  {
    var x := s.conns[c];
    var n := if x.key in s.connections then 1 else 0;
    var t := Set(Check(s, n == 1), c, x.(counts := x.counts.(erased := x.counts.erased + n)));
    t := t.(connections := t.connections - {x.key});
    hide Extends;
    SetExtends(s, t);
    PushExtends(t, x.loop, ConnectDestroyed(c));
    ExtendsTwice(s, t, Push(t, x.loop, ConnectDestroyed(c)));
  }

  lemma HandleCloseExtends(s: Server, c: nat)
    requires c < |s.conns|
    ensures Extends(s, HandleClose(s, c))
  {
    var x := s.conns[c];
    var t := Set(Check(s, x.phase.Connected? || x.phase.Disconnecting?), c,
                 x.(phase := Disconnected, registered := true, interest := false,
                    counts := x.counts.(closed := x.counts.closed + 1)));
    assert HandleClose(s, c)
        == if x.loop == ACCEPT_LOOP then Removed(t, c) else Push(t, ACCEPT_LOOP, RemoveConnectionInLoop(c));
    hide Extends, Removed, HandleClose, Push;
    SetExtends(s, t);
    PushExtends(t, ACCEPT_LOOP, RemoveConnectionInLoop(c));
    RemovedExtends(t, c);
    ExtendsTwice(s, t, HandleClose(s, c));
  }

  lemma CloseExtends(s: Server, c: nat)
    requires c < |s.conns|
    ensures Extends(s, HandleClose(s, c)) && Extends(s, Removed(s, c)) && Extends(s, Established(s, c))
  {
    HandleCloseExtends(s, c);
    RemovedExtends(s, c);
    SetExtends(s, Established(s, c));
  }

  lemma AcceptExtends(s: Server, ioLoop: nat)
    ensures Extends(s, NewConnection(s, ioLoop))
  {
    hide Key;
  }

  lemma CloseKeepsRaw(s: Server, c: nat)
    requires RawInv(s) && c < |s.conns|
    ensures RawInv(HandleClose(s, c)) && RawInv(Removed(s, c)) && RawInv(Established(s, c))
  {
    CloseExtends(s, c);
    hide Extends, RawInv, HandleClose, Removed, Established;
    ExtendsKeepsRaw(s, HandleClose(s, c));
    ExtendsKeepsRaw(s, Removed(s, c));
    ExtendsKeepsRaw(s, Established(s, c));
  }

  lemma PopKeepsRaw(s: Server, l: nat)
    requires RawInv(s) && Queue(s, l) != []
    ensures RawInv(Pop(s, l))
  {
    var t := Pop(s, l);
    forall m: nat
      ensures RawFirst(Queue(t, m)) && RawRegistered(t, m)
    {
      assert RawFirst(Queue(s, m)) && RawRegistered(s, m);
      assert Queue(t, m) == if m == l then Queue(s, m)[1..] else Queue(s, m);
      hide Queue, RawInv;
      TailIsRaw(s, t, m);
    }
  }

  lemma TailIsRaw(s: Server, t: Server, m: nat)
    requires RawFirst(Queue(s, m)) && RawRegistered(s, m) && t.conns == s.conns
    requires Queue(t, m) == Queue(s, m) || (Queue(s, m) != [] && Queue(t, m) == Queue(s, m)[1..])
    ensures RawFirst(Queue(t, m)) && RawRegistered(t, m)
  {
    hide Queue;
    if Queue(t, m) != Queue(s, m) {
      assert forall i :: 0 <= i < |Queue(t, m)| ==> Queue(t, m)[i] == Queue(s, m)[i + 1];
    }
  }

  lemma InQueueCounts(s: Server, l: nat, i: nat)
    requires i < |Queue(s, l)|
    ensures Count(s, l, Queue(s, l)[i]) > 0
  {
    assert Queue(s, l)[i] in multiset(Queue(s, l));
  }

  // Its own loop's queue holds everything about c behind this head, and nothing
  // raw is among it.
  lemma NoRawLeft(s: Server, l: nat, m: nat)
    requires Placed(s) && RawInv(s) && Queue(s, l) != [] && Queue(s, l)[0].ConnectDestroyed?
    ensures var q := Queue(Pop(s, l), m);
      forall i :: 0 <= i < |q| && IsRaw(q[i]) ==> q[i].conn != Queue(s, l)[0].conn
  {
    var q := Queue(Pop(s, l), m);
    InQueueCounts(s, l, 0);
    assert RawFirst(Queue(s, l));
    forall i: nat | i < |q| && IsRaw(q[i])
      ensures q[i].conn != Queue(s, l)[0].conn
    {
      if m == l {
        assert q[i] == Queue(s, l)[i + 1];
      } else {
        InQueueCounts(s, m, i);
        assert Belongs(s, m, Queue(s, m)[i]);
      }
    }
  }

  ghost predicate NoRawOf(s: Server, c: nat) {
    forall l: nat, i: nat :: i < |Queue(s, l)| && IsRaw(Queue(s, l)[i]) ==> Queue(s, l)[i].conn != c
  }

  lemma UnregisterKeepsRaw(s: Server, c: nat)
    requires RawInv(s) && c < |s.conns| && NoRawOf(s, c)
    ensures RawInv(Destroyed(s, c))
  {
    var t := Destroyed(s, c);
    forall l: nat
      ensures RawFirst(Queue(t, l)) && RawRegistered(t, l)
    {
      assert Queue(t, l) == Queue(s, l) && RawFirst(Queue(s, l)) && RawRegistered(s, l);
    }
  }

  lemma DestroyedKeepsRaw(s: Server, l: nat)
    requires Inv(s) && RawInv(s) && Queue(s, l) != [] && Queue(s, l)[0].ConnectDestroyed?
    requires Queue(s, l)[0].conn < |s.conns|
    ensures RawInv(Destroyed(Pop(s, l), Queue(s, l)[0].conn))
  {
    PopKeepsRaw(s, l);
    hide Keyed, Placed, AllOnTrip, RawInv, Destroyed, Queue;
    forall m: nat
      ensures var q := Queue(Pop(s, l), m); forall i :: 0 <= i < |q| && IsRaw(q[i]) ==> q[i].conn != Queue(s, l)[0].conn
    {
      NoRawLeft(s, l, m);
    }
    UnregisterKeepsRaw(Pop(s, l), Queue(s, l)[0].conn);
  }

  lemma CallKeepsRaw(s: Server, task: Task)
    requires Inv(s) && RawInv(s) && IsRaw(task) && task.conn < |s.conns|
    requires s.conns[task.conn].phase.Connected? || s.conns[task.conn].phase.Disconnecting?
    ensures RawInv(Push(s, s.conns[task.conn].loop, task))
  {
    var c, l := task.conn, s.conns[task.conn].loop;
    var t := Push(s, l, task);
    assert OnTrip(s, c);
    assert Count(s, l, ConnectDestroyed(c)) == 0 && s.conns[c].registered;
    forall m: nat
      ensures RawFirst(Queue(t, m)) && RawRegistered(t, m)
    {
      assert RawFirst(Queue(s, m)) && RawRegistered(s, m);
      if m == l {
        assert Queue(t, m) == Queue(s, m) + [task];
        forall i: nat | i < |Queue(s, l)|
          ensures Queue(s, l)[i] != ConnectDestroyed(c)
        {
          InQueueCounts(s, l, i);
        }
      } else {
        assert Queue(t, m) == Queue(s, m);
      }
    }
  }

  lemma UnsettleExtends(s: Server, c: nat)
    requires c < |s.conns|
    ensures Extends(s, Unsettle(s, c)) && Extends(s, Push(Unsettle(s, c), s.conns[c].loop, ForceCloseInLoop(c)))
  {
  }

  lemma RunTaskKeepsRaw(s: Server, l: nat)
    requires Inv(s) && RawInv(s) && Enabled(s, RunTask(l))
    ensures RawInv(Next(s, RunTask(l)))
  {
    PopKeepsRaw(s, l);
    var task := Queue(s, l)[0];
    hide Inv, RawInv, Established, Removed, Destroyed, HandleClose;
    CloseKeepsRaw(Pop(s, l), task.conn);
    if task.ConnectDestroyed? {
      DestroyedKeepsRaw(s, l);
    }
  }

  lemma StepKeepsRaw(s: Server, step: Step)
    requires Inv(s) && RawInv(s) && Enabled(s, step)
    ensures RawInv(Next(s, step))
  {
    hide Inv, RawInv, Extends, NewConnection, HandleClose;
    match step
    case Accept(ioLoop) =>
      AcceptExtends(s, ioLoop);
      ExtendsKeepsRaw(s, NewConnection(s, ioLoop));
    case RunTask(l) => RunTaskKeepsRaw(s, l);
    case Dispatch(c, r, eof) =>
      CloseKeepsRaw(s, c);
      CloseKeepsRaw(HandleClose(s, c), c);
    case Send(c) =>
      if s.conns[c].phase.Connected? {
        CallKeepsRaw(s, SendInLoop(c));
      }
    case Shutdown(c, _) =>
      if s.conns[c].phase.Connected? {
        UnsettleExtends(s, c);
        ExtendsKeepsRaw(s, Unsettle(s, c));
        UnsettledKeeps(s, c);
        CallKeepsRaw(Unsettle(s, c), ShutdownInLoop(c));
      }
    case ForceClose(c) =>
      UnsettleExtends(s, c);
      ExtendsKeepsRaw(s, Push(Unsettle(s, c), s.conns[c].loop, ForceCloseInLoop(c)));
  }

  lemma {:induction false} RunKeepsRaw(s: Server, steps: seq<Step>)
    requires Inv(s) && RawInv(s) && IsRun(s, steps) && NeverClosesTwice(steps)
    ensures RawInv(Exec(s, steps))
    decreases steps
  {
    if steps != [] {
      hide Inv, RawInv, Next, Enabled, ClosesTwice;
      assert !ClosesTwice(steps[0]);
      StepKeepsInv(s, steps[0]);
      StepKeepsRaw(s, steps[0]);
      assert forall i :: 0 <= i < |steps| - 1 ==> steps[1..][i] == steps[i + 1];
      RunKeepsRaw(Next(s, steps[0]), steps[1..]);
    }
  }

  // sendInLoop and shutdownInLoop are queued with a raw pointer. In every run
  // each stands in its connection's loop before any connectDestroyed of it, and
  // the connection is held and its channel registered for as long as it waits
  // and when it runs.
  lemma RawFunctorsAreSafe(name: string, ipPort: string, steps: seq<Step>, l: nat, i: nat)
    requires |ipPort| <= 51 && IsRun(Init(name, ipPort), steps) && NeverClosesTwice(steps)
    requires var s := Exec(Init(name, ipPort), steps); i < |Queue(s, l)| && IsRaw(Queue(s, l)[i])
    ensures var s := Exec(Init(name, ipPort), steps); var c := Queue(s, l)[i].conn;
      && c < |s.conns| && s.conns[c].loop == l && s.conns[c].registered && Held(s, c)
      && forall j :: 0 <= j < i ==> Queue(s, l)[j] != ConnectDestroyed(c)
  {
    ReachableInv(name, ipPort, steps);
    InitInv(name, ipPort);
    assert RawInv(Init(name, ipPort));
    RunKeepsRaw(Init(name, ipPort), steps);
    hide IsRun, Exec;
    var s := Exec(Init(name, ipPort), steps);
    assert RawFirst(Queue(s, l)) && RawRegistered(s, l);
    InQueueCounts(s, l, i);
    assert Belongs(s, l, Queue(s, l)[i]);
  }

  // ----------------------------------------------------- every close completes

  // n turns of loop l through its functor queue.
  function Turns(l: nat, n: nat): seq<Step> {
    if n == 0 then [] else [RunTask(l)] + Turns(l, n - 1)
  }

  ghost predicate SameLoops(s: Server, t: Server) {
    && |t.conns| == |s.conns|
    && forall c: nat :: c < |s.conns| ==>
         t.conns[c].loop == s.conns[c].loop && t.conns[c].counts.established >= s.conns[c].counts.established
  }

  lemma OperationsKeepLoops(s: Server, c: nat)
    requires c < |s.conns|
    ensures SameLoops(s, HandleClose(s, c)) && SameLoops(s, Removed(s, c)) && SameLoops(s, Established(s, c))
  {
  }

  lemma LengthensPrefix(q: seq<Task>, r: seq<Task>)
    requires Lengthens(q, r)
    ensures q <= r
  {
  }

  lemma PerformAppends(s: Server, task: Task, l: nat)
    requires task.conn < |s.conns|
    ensures Queue(s, l) <= Queue(Perform(s, task), l)
    ensures SameLoops(s, Perform(s, task))
  {
    hide Established, Removed, HandleClose, Queue;
    CloseExtends(s, task.conn);
    OperationsKeepLoops(s, task.conn);
    if task.ConnectDestroyed? {
      SetExtends(s, s);
      DestroyedLeavesQueues(s, task.conn, l);
    } else {
      SetExtends(s, s);
      LengthensPrefix(Queue(s, l), Queue(Perform(s, task), l));
    }
  }

  lemma DestroyedLeavesQueues(s: Server, c: nat, l: nat)
    requires c < |s.conns|
    ensures Queue(Destroyed(s, c), l) == Queue(s, l) && SameLoops(s, Destroyed(s, c))
  {
  }

  ghost predicate SameConns(s: Server, t: Server) {
    SameLoops(s, t) && t.fault == s.fault
  }

  lemma TurnAdvances(s: Server, l: nat)
    requires Inv(s) && Queue(s, l) != []
    ensures Enabled(s, RunTask(l))
    ensures var t := Next(s, RunTask(l)); Inv(t) && SameConns(s, t) && Queue(s, l)[1..] <= Queue(t, l)
  {
    RunTaskKeeps(s, l);
    hide Inv, Perform;
    PerformAppends(Pop(s, l), Queue(s, l)[0], l);
  }

  lemma Prepend(s: Server, step: Step, rest: seq<Step>, steps: seq<Step>)
    requires steps == [step] + rest
    requires Enabled(s, step) && IsRun(Next(s, step), rest)
    ensures IsRun(s, steps) && Exec(s, steps) == Exec(Next(s, step), rest)
  {
    hide Next, Enabled;
    assert steps[0] == step && steps[1..] == rest;
  }

  lemma {:induction false} TurnComes(s: Server, l: nat, k: nat)
    requires Inv(s) && k < |Queue(s, l)|
    ensures IsRun(s, Turns(l, k))
    ensures var t := Exec(s, Turns(l, k));
      Inv(t) && SameConns(s, t) && Queue(t, l) != [] && Queue(t, l)[0] == Queue(s, l)[k]
    decreases k
  {
    hide Inv, Next, Queue, Enabled;
    if k > 0 {
      hide IsRun, Exec;
      TurnAdvances(s, l);
      var n := Next(s, RunTask(l));
      assert Queue(n, l)[k - 1] == Queue(s, l)[1..][k - 1];
      TurnComes(n, l, k - 1);
      Prepend(s, RunTask(l), Turns(l, k - 1), Turns(l, k));
    }
  }

  lemma {:induction false} Chain(s: Server, a: seq<Step>, b: seq<Step>)
    requires IsRun(s, a) && IsRun(Exec(s, a), b)
    ensures IsRun(s, a + b) && Exec(s, a + b) == Exec(Exec(s, a), b)
    decreases a
  {
    hide Next, Enabled;
    if a == [] {
      assert a + b == b;
    } else {
      assert (a + b)[1..] == a[1..] + b;
      Chain(Next(s, a[0]), a[1..], b);
    }
  }

  // A functor that waits is run by the turns up to its place in the queue.
  lemma TaskRuns(s: Server, l: nat, task: Task) returns (steps: seq<Step>, before: Server)
    requires Inv(s) && Count(s, l, task) > 0
    ensures Inv(before) && SameConns(s, before)
    ensures Queue(before, l) != [] && Queue(before, l)[0] == task
    ensures |steps| <= |Queue(s, l)| && forall i :: 0 <= i < |steps| ==> steps[i] == RunTask(l)
    ensures IsRun(s, steps) && Enabled(before, RunTask(l)) && Exec(s, steps) == Next(before, RunTask(l))
    ensures Inv(Exec(s, steps))
  {
    var k := PlaceOf(s, l, task);
    hide Inv, Exec, IsRun, Next, Enabled, Queue, Count, SameConns;
    TurnComes(s, l, k);
    before := Exec(s, Turns(l, k));
    steps := Turns(l, k) + [RunTask(l)];
    RunTaskKeeps(before, l);
    OneTurn(before, l);
    Chain(s, Turns(l, k), [RunTask(l)]);
    TurnsShape(l, k);
  }

  lemma PlaceOf(s: Server, l: nat, task: Task) returns (k: nat)
    requires Count(s, l, task) > 0
    ensures k < |Queue(s, l)| && Queue(s, l)[k] == task
  {
    assert task in Queue(s, l);
    k :| k < |Queue(s, l)| && Queue(s, l)[k] == task;
  }

  lemma OneTurn(s: Server, l: nat)
    requires Enabled(s, RunTask(l))
    ensures IsRun(s, [RunTask(l)]) && Exec(s, [RunTask(l)]) == Next(s, RunTask(l))
  {
    hide Next;
    assert [RunTask(l)][1..] == [];
    assert IsRun(Next(s, RunTask(l)), []);
  }

  lemma {:induction false} TurnsShape(l: nat, n: nat)
    ensures |Turns(l, n)| == n && forall i :: 0 <= i < n ==> Turns(l, n)[i] == RunTask(l)
  {
    if n > 0 {
      TurnsShape(l, n - 1);
    }
  }

  lemma HeadCounts(s: Server, l: nat)
    requires Queue(s, l) != []
    ensures Count(s, l, Queue(s, l)[0]) > 0
  {
  }

  lemma RemovalErases(s: Server, c: nat)
    requires Queue(s, ACCEPT_LOOP) != [] && Queue(s, ACCEPT_LOOP)[0] == RemoveConnectionInLoop(c)
    requires c < |s.conns| && s.conns[c].counts == Counts(1, 1, 0, 0) && s.conns[c].key in s.connections
    ensures var t := Next(s, RunTask(ACCEPT_LOOP));
      c < |t.conns| && t.conns[c].counts == Counts(1, 1, 1, 0) && t.conns[c].loop == s.conns[c].loop
  {
  }

  lemma EraseRuns(s: Server, c: nat) returns (steps: seq<Step>)
    requires Inv(s) && c < |s.conns| && s.conns[c].counts == Counts(1, 1, 0, 0)
    ensures forall i :: 0 <= i < |steps| ==> steps[i] == RunTask(ACCEPT_LOOP)
    ensures IsRun(s, steps) && c < |Exec(s, steps).conns| && Inv(Exec(s, steps))
    ensures Exec(s, steps).conns[c].counts == Counts(1, 1, 1, 0)
    ensures Exec(s, steps).conns[c].loop == s.conns[c].loop
  {
    InvBase(s, c);
    hide Inv, Base, Count, Exec, IsRun, Mapped, Next, Queue;
    var before: Server;
    steps, before := TaskRuns(s, ACCEPT_LOOP, RemoveConnectionInLoop(c));
    InvBase(before, c);
    HeadCounts(before, ACCEPT_LOOP);
    assert Closed(before.conns[c], Mapped(before, c), TallyOf(before, c));
    KeyOfMapped(before, c);
    RemovalErases(before, c);
  }

  lemma KeyOfMapped(s: Server, c: nat)
    requires c < |s.conns| && Mapped(s, c)
    ensures s.conns[c].key in s.connections
  {
  }

  lemma DestroyRuns(s: Server, c: nat) returns (steps: seq<Step>)
    requires Inv(s) && c < |s.conns| && s.conns[c].counts == Counts(1, 1, 1, 0)
    ensures forall i :: 0 <= i < |steps| ==> steps[i] == RunTask(s.conns[c].loop)
    ensures IsRun(s, steps) && c < |Exec(s, steps).conns|
    ensures Exec(s, steps).conns[c].counts == Counts(1, 1, 1, 1) && !Exec(s, steps).conns[c].registered
  {
    InvBase(s, c);
    hide Inv, Base, Count, Exec, IsRun, Mapped;
    var before: Server;
    steps, before := TaskRuns(s, s.conns[c].loop, ConnectDestroyed(c));
    InvBase(before, c);
    HeadCounts(before, s.conns[c].loop);
    assert Erased(before.conns[c], Mapped(before, c), TallyOf(before, c));
  }

  // One pass through its loop's queue establishes an accepted connection.
  lemma EstablishCompletes(s: Server, c: nat) returns (steps: seq<Step>)
    requires Inv(s) && c < |s.conns| && s.conns[c].counts.established == 0
    ensures forall i :: 0 <= i < |steps| ==> steps[i] == RunTask(s.conns[c].loop)
    ensures IsRun(s, steps) && c < |Exec(s, steps).conns|
    ensures Exec(s, steps).conns[c].phase.Connected? && Exec(s, steps).conns[c].registered
  {
    InvBase(s, c);
    hide Inv, Base, Count, Exec, IsRun, Mapped;
    var before: Server;
    steps, before := TaskRuns(s, s.conns[c].loop, ConnectEstablished(c));
  }

  // From any reachable state, one pass through the accept loop's queue and one
  // through the connection's own loop's take a closed connection to its end.
  lemma CloseCompletes(s: Server, c: nat) returns (steps: seq<Step>)
    requires Inv(s) && c < |s.conns| && s.conns[c].counts.closed == 1
    ensures forall i :: 0 <= i < |steps| ==> steps[i].RunTask? && steps[i].loop in {ACCEPT_LOOP, s.conns[c].loop}
    ensures IsRun(s, steps) && c < |Exec(s, steps).conns|
    ensures Exec(s, steps).conns[c].counts == Counts(1, 1, 1, 1) && !Exec(s, steps).conns[c].registered
  {
    assert OnTrip(s, c);
    if s.conns[c].counts.erased == 0 {
      hide Inv, Exec, IsRun, OnTrip;
      var first := EraseRuns(s, c);
      var second := DestroyRuns(Exec(s, first), c);
      Chain(s, first, second);
      steps := first + second;
    } else if s.conns[c].counts.destroyed == 0 {
      steps := DestroyRuns(s, c);
    } else {
      steps := [];
    }
  }

  // ----------------------------------------------------- every forceClose closes

  // Connection c is closed, or the functor that will close it waits.
  ghost predicate Closing(s: Server, c: nat) {
    && c < |s.conns| && s.conns[c].counts.established == 1
    && (s.conns[c].counts.closed == 1 || Count(s, s.conns[c].loop, ForceCloseInLoop(c)) > 0)
  }

  lemma ForceCloseQueues(s: Server, c: nat)
    requires Inv(s) && Enabled(s, ForceClose(c)) && (s.conns[c].phase.Connected? || s.conns[c].phase.Disconnecting?)
    ensures Closing(Next(s, ForceClose(c)), c)
  {
    assert OnTrip(s, c);
  }

  lemma DispatchAppends(s: Server, step: Step, l: nat)
    requires step.Dispatch? && Enabled(s, step)
    ensures Queue(s, l) <= Queue(Next(s, step), l) && SameLoops(s, Next(s, step))
  {
    var c, t := step.conn, HandleClose(s, step.conn);
    CloseAppends(s, c, l);
    CloseAppends(t, c, l);
    hide HandleClose, Queue;
  }

  lemma CloseAppends(s: Server, c: nat, l: nat)
    requires c < |s.conns|
    ensures Queue(s, l) <= Queue(HandleClose(s, c), l) && SameLoops(s, HandleClose(s, c))
  {
    HandleCloseExtends(s, c);
    OperationsKeepLoops(s, c);
    hide HandleClose, Established, Removed, Queue;
    LengthensPrefix(Queue(s, l), Queue(HandleClose(s, c), l));
  }

  // Only running a functor takes it out of its queue.
  lemma StepAppends(s: Server, step: Step, l: nat, c: nat)
    requires Inv(s) && Enabled(s, step) && c < |s.conns|
    ensures var t := Next(s, step);
      && (step.RunTask? ==> Queue(s, step.loop) != [] && Queue(Pop(s, step.loop), l) <= Queue(t, l))
      && (!step.RunTask? ==> Queue(s, l) <= Queue(t, l))
      && c < |t.conns| && t.conns[c].loop == s.conns[c].loop
      && t.conns[c].counts.established >= s.conns[c].counts.established
  {
    hide Inv, Next, Queue, Perform, Mapped, Key;
    match step
    case Accept(ioLoop) =>
      AcceptPlaces(s, ioLoop);
      assert Next(s, step).conns[..|s.conns|][c] == s.conns[c];
    case RunTask(m) =>
      PerformAppends(Pop(s, m), Queue(s, m)[0], l);
      NextIsPerform(s, m);
    case Dispatch(_, _, _) => DispatchAppends(s, step, l);
    case Send(_) => CallEffect(s, step);
    case Shutdown(_, _) => CallEffect(s, step);
    case ForceClose(_) => CallEffect(s, step);
  }

  lemma NextIsPerform(s: Server, l: nat)
    requires Enabled(s, RunTask(l))
    ensures Next(s, RunTask(l)) == Perform(Pop(s, l), Queue(s, l)[0])
  {
  }

  lemma PrefixCounts(q: seq<Task>, r: seq<Task>, task: Task)
    requires q <= r
    ensures multiset(q)[task] <= multiset(r)[task]
  {
    assert r == q + r[|q|..];
  }

  lemma ClosingStays(s: Server, step: Step, c: nat)
    requires Inv(s) && Enabled(s, step) && !ClosesTwice(step) && Closing(s, c)
    ensures Closing(Next(s, step), c)
  {
    var t, l, task := Next(s, step), s.conns[c].loop, ForceCloseInLoop(c);
    assert OnTrip(s, c);
    StepAppends(s, step, l, c);
    StepClosesIff(s, step, c);
    StepKeepsInv(s, step);
    assert OnTrip(t, c);
    hide Inv, Next, Mapped;
    if step.RunTask? {
      PopIsOneLess(s, step.loop);
      PrefixCounts(Queue(Pop(s, step.loop), l), Queue(t, l), task);
      assert Count(s, l, task) == Count(Pop(s, step.loop), l, task)
           + if l == step.loop && task == Queue(s, step.loop)[0] then 1 else 0;
    } else {
      PrefixCounts(Queue(s, l), Queue(t, l), task);
    }
  }

  lemma {:induction false} RunKeepsClosing(s: Server, steps: seq<Step>, c: nat)
    requires Inv(s) && IsRun(s, steps) && NeverClosesTwice(steps) && Closing(s, c)
    ensures Inv(Exec(s, steps)) && Closing(Exec(s, steps), c)
    decreases steps
  {
    if steps != [] {
      hide Inv, Next, Enabled, ClosesTwice, Closing;
      assert !ClosesTwice(steps[0]);
      StepKeepsInv(s, steps[0]);
      ClosingStays(s, steps[0], c);
      assert forall i :: 0 <= i < |steps| - 1 ==> steps[1..][i] == steps[i + 1];
      RunKeepsClosing(Next(s, steps[0]), steps[1..], c);
    }
  }

  // After the forceClose of a live connection, however the run goes on, the
  // connection is closed or one pass through its loop's queue closes it.
  lemma ForceCloseCloses(s: Server, c: nat, steps: seq<Step>) returns (rest: seq<Step>)
    requires Inv(s) && Enabled(s, ForceClose(c)) && (s.conns[c].phase.Connected? || s.conns[c].phase.Disconnecting?)
    requires IsRun(Next(s, ForceClose(c)), steps) && NeverClosesTwice(steps)
    ensures var t := Exec(Next(s, ForceClose(c)), steps);
      && c < |t.conns| && (forall i :: 0 <= i < |rest| ==> rest[i] == RunTask(t.conns[c].loop))
      && IsRun(t, rest) && c < |Exec(t, rest).conns|
      && Exec(t, rest).conns[c].counts.closed == 1 && Exec(t, rest).conns[c].phase.Disconnected?
  {
    var n := Next(s, ForceClose(c));
    var t := Exec(n, steps);
    ForceCloseQueues(s, c);
    StepKeepsInv(s, ForceClose(c));
    hide Inv, Next, Exec, IsRun;
    RunKeepsClosing(n, steps, c);
    if t.conns[c].counts.closed == 1 {
      rest := [];
      ClosedIsDisconnected(t, c);
      EmptyRun(t);
    } else {
      var before: Server;
      rest, before := TaskRuns(t, t.conns[c].loop, ForceCloseInLoop(c));
      InvBase(before, c);
      StepClosesIff(before, RunTask(t.conns[c].loop), c);
      ClosedIsDisconnected(Exec(t, rest), c);
    }
  }

  lemma EmptyRun(s: Server)
    ensures IsRun(s, []) && Exec(s, []) == s
  {
  }

  lemma ClosedIsDisconnected(s: Server, c: nat)
    requires Inv(s) && c < |s.conns| && s.conns[c].counts.closed == 1
    ensures s.conns[c].phase.Disconnected?
  {
    assert OnTrip(s, c);
  }

  // The excluded dispatch does break the trip: a connection of the accept loop
  // whose peer hung up with urgent data pending is closed twice.
  lemma HangUpWithUrgentData(name: string, ipPort: string)
    ensures var s := NewConnection(Init(name, ipPort), ACCEPT_LOOP);
      var step := Dispatch(0, Revents(true, false, true, false, false), true);
      && Enabled(Init(name, ipPort), Accept(ACCEPT_LOOP)) && Next(Init(name, ipPort), Accept(ACCEPT_LOOP)) == s
      && Enabled(s, step) && !s.fault && Next(s, step).fault
  {
  }

  // ------------------------------------------------------------- the class

  class TcpServer {
    const name: string
    const ipPort: string
    var nextConnId: nat
    var connections: map<string, nat>
    var conns: seq<Conn>
    var queues: map<nat, seq<Task>>
    ghost var fault: bool

    ghost function State(): Server
      reads this
    {
      Server(name, ipPort, nextConnId, conns, connections, queues, fault)
    }

    constructor (name: string, ipPort: string)
      ensures State() == Init(name, ipPort)
    {
      this.name, this.ipPort, nextConnId := name, ipPort, 1;
      connections, conns, queues, fault := map[], [], map[], false;
    }

    ghost method Assert(condition: bool)
      modifies this`fault
      ensures State() == Check(old(State()), condition)
    {
      fault := fault || !condition;
    }

    method QueueInLoop(l: nat, task: Task)
      modifies this`queues
      ensures State() == Push(old(State()), l, task)
    {
      queues := queues[l := (if l in queues then queues[l] else []) + [task]];
    }

    method EstablishConnection(c: nat)
      requires c < |conns|
      modifies this`conns, this`fault
      ensures State() == Established(old(State()), c)
    {
      Assert(conns[c].phase.Connecting?);
      var x := conns[c];
      conns := conns[c := x.(phase := Connected, registered := true, interest := true,
                             counts := x.counts.(established := x.counts.established + 1))];
    }

    method AcceptConnection(ioLoop: nat)
      modifies this
      ensures State() == NewConnection(old(State()), ioLoop)
    {
      var key := Key(name, ipPort, nextConnId);
      nextConnId := nextConnId + 1;
      var c := |conns|;
      conns := conns + [Conn(ioLoop, key, Connecting, false, false, Counts(0, 0, 0, 0))];
      connections := connections[key := c];
      if ioLoop == ACCEPT_LOOP {
        EstablishConnection(c);
      } else {
        QueueInLoop(ioLoop, ConnectEstablished(c));
      }
    }

    method RemoveInLoop(c: nat)
      requires c < |conns|
      modifies this`conns, this`connections, this`queues, this`fault
      ensures State() == Removed(old(State()), c)
    {
      var x := conns[c];
      var n := if x.key in connections then 1 else 0;
      connections := connections - {x.key};
      Assert(n == 1);
      conns := conns[c := x.(counts := x.counts.(erased := x.counts.erased + n))];
      QueueInLoop(x.loop, ConnectDestroyed(c));
    }

    method CloseConnection(c: nat)
      requires c < |conns|
      modifies this`conns, this`connections, this`queues, this`fault
      ensures State() == HandleClose(old(State()), c)
    {
      var x := conns[c];
      Assert(x.phase.Connected? || x.phase.Disconnecting?);
      conns := conns[c := x.(phase := Disconnected, registered := true, interest := false,
                             counts := x.counts.(closed := x.counts.closed + 1))];
      if x.loop == ACCEPT_LOOP {
        RemoveInLoop(c);
      } else {
        QueueInLoop(ACCEPT_LOOP, RemoveConnectionInLoop(c));
      }
    }

    method DestroyConnection(c: nat)
      requires c < |conns|
      modifies this`conns, this`fault
      ensures State() == Destroyed(old(State()), c)
    {
      var x := conns[c];
      if x.phase.Connected? {
        x := x.(phase := Disconnected, registered := true, interest := false);
      }
      Assert(!x.interest && x.registered);
      conns := conns[c := x.(registered := false, counts := x.counts.(destroyed := x.counts.destroyed + 1))];
    }

    method DispatchEvent(c: nat, r: Revents, eof: bool)
      requires c < |conns|
      modifies this`conns, this`connections, this`queues, this`fault
      ensures State() == HandleEvent(old(State()), c, r, eof)
      ensures |conns| == |old(conns)|
      ensures EndsOn(r, eof) ==> conns[c].phase.Disconnected?
      ensures !EndsOn(r, eof) ==> State() == old(State())
    {
      if r.hup && !r.readable {
        CloseConnection(c);
      }
      if r.readable || r.urgent || r.rdhup {
        if eof {
          CloseConnection(c);
        }
      }
    }

    method RunNext(l: nat)
      requires Enabled(State(), RunTask(l))
      modifies this`conns, this`connections, this`queues, this`fault
      ensures State() == Next(old(State()), RunTask(l))
    {
      var task := queues[l][0];
      queues := queues[l := queues[l][1..]];
      hide Established, Removed, HandleClose, Destroyed;
      match task
      case ConnectEstablished(c) => EstablishConnection(c);
      case RemoveConnectionInLoop(c) => RemoveInLoop(c);
      case ConnectDestroyed(c) => DestroyConnection(c);
      case ForceCloseInLoop(c) =>
        if conns[c].phase.Connected? || conns[c].phase.Disconnecting? {
          CloseConnection(c);
        }
      case SendInLoop(_) =>
      case ShutdownInLoop(_) =>
    }
  }
}
