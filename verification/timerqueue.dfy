// net/timerqueue.cpp over an explicit heap of timers, a one-shot kernel timer
// and a clock. Addresses may be reused after a timer is freed, as with malloc.
module Timers {
  import opened OrderedEntries

  const MICROS_PER_SECOND: int := 1000000
  const CLAMP: int := 100
  const SENTRY: nat := 4294967295

  // ------------------------------------------------------- kernel timer

  datatype TimerFd = Disarmed | Armed(at: int, since: int) {
    predicate Readable(clock: int) { Armed? && at <= clock }
  }

  datatype TimeSpec = TimeSpec(sec: int, nsec: int)

  function Larger(a: int, b: int): int {
    if a < b then b else a
  }

  // Normalised, never zero, and worth exactly the clamped distance.
  function HowMuchTimeFromNow(when: int, now: int): (ts: TimeSpec)
    ensures 0 <= ts.sec && 0 <= ts.nsec < 1000000000
    ensures ts != TimeSpec(0, 0)
    ensures ts.sec * MICROS_PER_SECOND * 1000 + ts.nsec == Larger(when - now, CLAMP) * 1000
  {
    var micros := if when - now < CLAMP then CLAMP else when - now;
    TimeSpec(micros / MICROS_PER_SECOND, micros % MICROS_PER_SECOND * 1000)
  }

  // timerfd_settime: a zero it_value disarms the timer.
  function SetTime(clock: int, ts: TimeSpec): TimerFd {
    if ts == TimeSpec(0, 0) then Disarmed
    else Armed(clock + ts.sec * MICROS_PER_SECOND + ts.nsec / 1000, clock)
  }

  lemma SetTimeArms(when: int, clock: int)
    ensures SetTime(clock, HowMuchTimeFromNow(when, clock)) == Armed(Larger(when, clock + CLAMP), clock)
  {
  }

  // The kernel timer goes off no later than `when`, or CLAMP after it was set.
  predicate InTime(when: int, fd: TimerFd) {
    fd.Armed? && fd.at <= Larger(when, fd.since + CLAMP)
  }

  // ---------------------------------------------------------- queue value

  // interval_ is a double in the source; delta is the whole microseconds that
  // addTime adds for it, so a repeating timer may have delta 0.
  datatype Timer = Timer(expiration: int, delta: nat, repeat: bool, sequence: nat)

  // TimerId and ActiveTimer.
  datatype TimerId = TimerId(addr: nat, sequence: nat)

  // What is known for ever about a timer, by sequence number.
  datatype Birth = Birth(addr: nat, delta: nat, repeat: bool)

  // One run of a callback.
  datatype Firing = Firing(sequence: nat, addr: nat, batch: nat, now: int, when: int)

  datatype Queue = Queue(
    heap: map<nat, Timer>,       // timers that exist, by address
    numCreated: nat,             // Timer::s_numCreated_
    timers: seq<Entry>,
    active: set<TimerId>,
    calling: bool,
    canceling: set<TimerId>,
    pending: set<nat>,           // held by addTimerInLoop functors not run yet
    clock: int,
    timerfd: TimerFd,
    queued: set<nat>,            // addresses in the two indexes
    running: set<nat>,           // addresses in the expired batch
    done: set<nat>,              // those of them whose callback has run
    handling: bool,              // inside handleRead
    batches: nat,
    lastNow: int,                // `now` of the latest handleRead
    born: map<nat, Birth>,
    freedAt: map<nat, nat>,      // log length at the moment of delete
    cancelled: map<nat, nat>,    // batch count at each cancel that found its timer
    log: seq<Firing>)

  // Every live timer has exactly one owner; both indexes hold the queued ones,
  // keyed by their current expiration and sequence.
  ghost predicate Owned(heap: map<nat, Timer>, pending: set<nat>, queued: set<nat>, running: set<nat>,
                        timers: seq<Entry>, active: set<TimerId>) {
    && heap.Keys == pending + queued + running
    && pending !! queued !! running
    && Sorted(timers)
    && (forall e :: e in timers ==> e.addr in queued && e.when == heap[e.addr].expiration)
    && (forall a :: a in queued ==> Entry(heap[a].expiration, a) in timers)
    && (forall id :: id in active ==> id.addr in queued && id.sequence == heap[id.addr].sequence)
    && (forall a :: a in queued ==> TimerId(a, heap[a].sequence) in active)
  }

  // A sequence number names one timer for ever, and that timer is either live
  // or freed.
  ghost predicate Sequenced(heap: map<nat, Timer>, born: map<nat, Birth>, freedAt: map<nat, nat>, numCreated: nat) {
    && (forall a :: a in heap ==>
          && heap[a].sequence in born
          && heap[a].sequence !in freedAt
          && born[heap[a].sequence] == Birth(a, heap[a].delta, heap[a].repeat))
    && (forall q :: q in born && q !in freedAt ==> born[q].addr in heap && heap[born[q].addr].sequence == q)
    && (forall q :: q in born ==> q <= numCreated)
    && (forall q :: q in freedAt ==> q in born)
  }

  ghost predicate Phased(s: Queue) {
    && s.clock > 0
    && s.lastNow <= s.clock
    && (s.handling ==> 0 < s.lastNow)
    && (s.calling ==> s.handling)
    && (!s.handling ==> s.running == {})
    && s.done <= s.running
    && (s.timerfd.Armed? ==> s.timerfd.since <= s.clock)
  }

  predicate InOrder(a: Firing, b: Firing) {
    && a.now <= b.now
    && a.batch <= b.batch
    && (a.batch == b.batch ==> a.now == b.now && Less(Entry(a.when, a.addr), Entry(b.when, b.addr)))
  }

  predicate FiringOk(f: Firing, born: map<nat, Birth>, batches: nat, lastNow: int) {
    && f.when <= f.now <= lastNow
    && f.batch <= batches
    && (f.batch == batches ==> f.now == lastNow)
    && f.sequence in born
    && born[f.sequence].addr == f.addr
  }

  // Two runs of one timer: it repeats, and they are its interval apart.
  predicate Spaced(f: Firing, g: Firing, b: Birth) {
    b.repeat && f.now + b.delta <= g.now && f.batch < g.batch
  }

  ghost predicate Past(log: seq<Firing>, born: map<nat, Birth>, batches: nat, lastNow: int) {
    && (forall i :: 0 <= i < |log| ==> FiringOk(log[i], born, batches, lastNow))
    && (forall i, j :: 0 <= i < j < |log| ==> InOrder(log[i], log[j]))
    && (forall i, j :: 0 <= i < j < |log| && log[i].sequence == log[j].sequence ==>
          Spaced(log[i], log[j], born[log[i].sequence]))
  }

  // No timer runs once it is freed.
  ghost predicate Final(log: seq<Firing>, freedAt: map<nat, nat>) {
    forall i :: 0 <= i < |log| && log[i].sequence in freedAt ==> i < freedAt[log[i].sequence]
  }

  // A live timer that ran before and did not just run in this batch is not due
  // again before its interval is over.
  ghost predicate Resting(f: Firing, b: Birth, heap: map<nat, Timer>, pending: set<nat>, running: set<nat>, batches: nat) {
    && b.addr in heap
    && b.addr !in pending
    && b.repeat
    && f.now + b.delta <= heap[b.addr].expiration
    && (b.addr in running ==> f.batch < batches)
  }

  ghost predicate AllResting(log: seq<Firing>, born: map<nat, Birth>, freedAt: map<nat, nat>, heap: map<nat, Timer>,
                             pending: set<nat>, running: set<nat>, done: set<nat>, batches: nat) {
    forall i :: 0 <= i < |log| ==>
      && log[i].sequence in born
      && (log[i].sequence !in freedAt && born[log[i].sequence].addr !in done ==>
            Resting(log[i], born[log[i].sequence], heap, pending, running, batches))
  }

  // What is still to run in this batch comes after what has run.
  ghost predicate Ahead(log: seq<Firing>, heap: map<nat, Timer>, running: set<nat>, done: set<nat>, batches: nat) {
    forall i, a :: 0 <= i < |log| && log[i].batch == batches && a in running && a !in done && a in heap ==>
      Less(Entry(log[i].when, log[i].addr), Entry(heap[a].expiration, a))
  }

  // A cancelled timer is freed, or it is in the batch being run and marked.
  ghost predicate Doomed(cancelled: map<nat, nat>, born: map<nat, Birth>, freedAt: map<nat, nat>, running: set<nat>,
                         canceling: set<TimerId>, batches: nat) {
    forall q :: q in cancelled ==>
      && q in born
      && cancelled[q] <= batches
      && (q !in freedAt ==>
            cancelled[q] == batches && born[q].addr in running && TimerId(born[q].addr, q) in canceling)
  }

  ghost predicate CancelLog(log: seq<Firing>, cancelled: map<nat, nat>) {
    forall i :: 0 <= i < |log| && log[i].sequence in cancelled ==> log[i].batch <= cancelled[log[i].sequence]
  }

  ghost predicate Core(s: Queue) {
    && Owned(s.heap, s.pending, s.queued, s.running, s.timers, s.active)
    && Sequenced(s.heap, s.born, s.freedAt, s.numCreated)
    && Phased(s)
    && Past(s.log, s.born, s.batches, s.lastNow)
    && Final(s.log, s.freedAt)
    && AllResting(s.log, s.born, s.freedAt, s.heap, s.pending, s.running, s.done, s.batches)
    && Ahead(s.log, s.heap, s.running, s.done, s.batches)
    && Doomed(s.cancelled, s.born, s.freedAt, s.running, s.canceling, s.batches)
    && CancelLog(s.log, s.cancelled)
  }

  // Outside handleRead the kernel timer covers the earliest expiration. Inside
  // it, only expirations that reset will not arm for need to be covered.
  ghost predicate Punctual(s: Queue) {
    s.timers != [] && (s.handling ==> s.timers[0].when <= 0) ==> InTime(s.timers[0].when, s.timerfd)
  }

  ghost predicate Valid(s: Queue) {
    Core(s) && Punctual(s)
  }

  // ---------------------------------------------------------------- steps

  function Elapsed(s: Queue, micros: nat): Queue {
    s.(clock := s.clock + micros)
  }

  // new Timer in addTimer, on any thread; `others` timers were made for other
  // queues in between.
  function Made(s: Queue, addr: nat, when: int, repeat: bool, delta: nat, others: nat): Queue {
    var n := s.numCreated + others + 1;
    s.(numCreated := n,
       heap := s.heap[addr := Timer(when, delta, repeat, n)],
       pending := s.pending + {addr},
       born := s.born[n := Birth(addr, delta, repeat)])
  }

  function Rearmed(s: Queue, when: int): Queue {
    s.(timerfd := Armed(Larger(when, s.clock + CLAMP), s.clock))
  }

  // insert takes the timer over from a queued functor or from the batch.
  ghost predicate Insertable(s: Queue, addr: nat) {
    && addr in s.heap
    && (addr in s.pending ||
        (&& addr in s.done
         && s.heap[addr].repeat
         && s.heap[addr].expiration == s.lastNow + s.heap[addr].delta
         && TimerId(addr, s.heap[addr].sequence) !in s.canceling))
  }

  function KeyOf(s: Queue, addr: nat): Entry
    requires addr in s.heap
  {
    Entry(s.heap[addr].expiration, addr)
  }

  // Both inserts will find their place free.
  predicate Absent(s: Queue, addr: nat)
    requires addr in s.heap
  {
    KeyOf(s, addr) !in s.timers && TimerId(addr, s.heap[addr].sequence) !in s.active
  }

  predicate EarliestChanged(s: Queue, addr: nat)
    requires addr in s.heap
  {
    s.timers == [] || s.heap[addr].expiration < s.timers[0].when
  }

  function Inserted(s: Queue, addr: nat): Queue
    requires Sorted(s.timers) && addr in s.heap && Absent(s, addr)
  {
    s.(timers := Insert(s.timers, KeyOf(s, addr)),
       active := s.active + {TimerId(addr, s.heap[addr].sequence)},
       pending := s.pending - {addr},
       queued := s.queued + {addr},
       running := s.running - {addr},
       done := s.done - {addr})
  }

  function AddedInLoop(s: Queue, addr: nat): Queue
    requires Sorted(s.timers) && addr in s.heap && Absent(s, addr)
  {
    if EarliestChanged(s, addr) then Rearmed(Inserted(s, addr), s.heap[addr].expiration)
    else Inserted(s, addr)
  }

  function Deleted(s: Queue, addr: nat): Queue
    requires addr in s.heap
  {
    s.(heap := s.heap - {addr},
       freedAt := s.freedAt[s.heap[addr].sequence := |s.log|],
       queued := s.queued - {addr},
       running := s.running - {addr},
       done := s.done - {addr})
  }

  // The cancel finds its timer in the indexes or in the batch being run.
  predicate Finds(s: Queue, id: TimerId) {
    id in s.active || (s.calling && id.addr in s.running && id.addr in s.heap && s.heap[id.addr].sequence == id.sequence)
  }

  function CancelledInLoop(s: Queue, id: TimerId): Queue
    requires Sorted(s.timers)
    requires id in s.active ==> id.addr in s.heap && KeyOf(s, id.addr) in s.timers
  {
    var t := if Finds(s, id) then s.(cancelled := s.cancelled[id.sequence := s.batches]) else s;
    if id in s.active then
      Deleted(t, id.addr).(timers := Erase(s.timers, KeyOf(s, id.addr)), active := s.active - {id})
    else if s.calling then t.(canceling := s.canceling + {id})
    else t
  }

  function ReadTimerfd(fd: TimerFd, clock: int): TimerFd {
    if fd.Readable(clock) then Disarmed else fd
  }

  function ExpiredCount(s: Queue): (k: nat)
    requires Sorted(s.timers)
    ensures k <= |s.timers|
  {
    LowerBound(s.timers, Entry(s.clock, SENTRY))
  }

  function Addresses(es: seq<Entry>): (r: set<nat>)
    ensures forall e :: e in es ==> e.addr in r
    ensures forall a :: a in r ==> exists e :: e in es && e.addr == a
  {
    set e | e in es :: e.addr
  }

  // handleRead up to the first callback.
  function Begun(s: Queue): Queue
    requires Sorted(s.timers)
  {
    var k := ExpiredCount(s);
    var batch := Addresses(s.timers[..k]);
    s.(timerfd := ReadTimerfd(s.timerfd, s.clock),
       timers := s.timers[k..],
       active := (set id | id in s.active && id.addr !in batch :: id),
       calling := true,
       canceling := {},
       queued := s.queued - batch,
       running := batch,
       done := {},
       handling := true,
       batches := s.batches + 1,
       lastNow := s.clock)
  }

  function FiringOf(s: Queue, e: Entry): Firing
    requires e.addr in s.heap
  {
    Firing(s.heap[e.addr].sequence, e.addr, s.batches, s.lastNow, e.when)
  }

  // The next callback of the batch starts.
  function Fired(s: Queue, e: Entry): Queue
    requires e.addr in s.heap
  {
    s.(log := s.log + [FiringOf(s, e)],
       done := s.done + {e.addr})
  }

  ghost predicate NextToFire(s: Queue, e: Entry) {
    && s.handling
    && e.addr in s.running - s.done
    && e.addr in s.heap
    && e.when == s.heap[e.addr].expiration
    && e.when <= s.lastNow
    && (forall a :: a in s.running - s.done && a in s.heap ==> a == e.addr || Less(e, KeyOf(s, a)))
  }

  // One round of the loop in reset.
  predicate Survives(s: Queue, addr: nat)
    requires addr in s.heap
  {
    s.heap[addr].repeat && TimerId(addr, s.heap[addr].sequence) !in s.canceling
  }

  function Restarted(s: Queue, addr: nat): Queue
    requires addr in s.heap
  {
    s.(heap := s.heap[addr := s.heap[addr].(expiration := s.lastNow + s.heap[addr].delta)])
  }

  function Recycled(s: Queue, addr: nat): Queue
    requires Sorted(s.timers) && addr in s.heap
    requires Survives(s, addr) ==> Absent(Restarted(s, addr), addr)
  {
    if Survives(s, addr) then Inserted(Restarted(s, addr), addr) else Deleted(s, addr)
  }

  // The end of reset and of handleRead.
  function Finished(s: Queue): Queue {
    var t := s.(handling := false);
    if s.timers != [] && s.timers[0].when > 0 then Rearmed(t, s.timers[0].when) else t
  }

  // ------------------------------------------------ every step keeps Valid

  lemma ElapsedKeeps(s: Queue, micros: nat)
    requires Valid(s)
    ensures Valid(Elapsed(s, micros))
  {
  }

  lemma MadeOwned(s: Queue, addr: nat, t: Timer)
    requires Owned(s.heap, s.pending, s.queued, s.running, s.timers, s.active) && addr !in s.heap
    ensures Owned(s.heap[addr := t], s.pending + {addr}, s.queued, s.running, s.timers, s.active)
  {
  }

  lemma MadeSequenced(s: Queue, t: Queue, addr: nat, when: int, repeat: bool, delta: nat, others: nat)
    requires Sequenced(s.heap, s.born, s.freedAt, s.numCreated) && addr !in s.heap
    requires t == Made(s, addr, when, repeat, delta, others)
    ensures Sequenced(t.heap, t.born, t.freedAt, t.numCreated)
  {
  }

  lemma MadeResting(s: Queue, t: Queue, addr: nat, when: int, repeat: bool, delta: nat, others: nat)
    requires Core(s) && addr !in s.heap && t == Made(s, addr, when, repeat, delta, others)
    ensures AllResting(t.log, t.born, t.freedAt, t.heap, t.pending, t.running, t.done, t.batches)
  {
    forall i | 0 <= i < |t.log|
      ensures t.log[i].sequence in t.born
      ensures t.log[i].sequence !in t.freedAt && t.born[t.log[i].sequence].addr !in t.done ==>
                Resting(t.log[i], t.born[t.log[i].sequence], t.heap, t.pending, t.running, t.batches)
    {
      assert FiringOk(s.log[i], s.born, s.batches, s.lastNow);
      assert s.log[i].sequence <= s.numCreated;
    }
  }

  lemma MadeHistory(s: Queue, t: Queue, addr: nat, when: int, repeat: bool, delta: nat, others: nat)
    requires Core(s) && addr !in s.heap && t == Made(s, addr, when, repeat, delta, others)
    ensures Phased(t) && Past(t.log, t.born, t.batches, t.lastNow) && Final(t.log, t.freedAt)
    ensures Ahead(t.log, t.heap, t.running, t.done, t.batches)
    ensures Doomed(t.cancelled, t.born, t.freedAt, t.running, t.canceling, t.batches) && CancelLog(t.log, t.cancelled)
  {
    assert t.numCreated !in s.born;
    assert forall q :: q in s.born ==> q in t.born && t.born[q] == s.born[q];
    assert addr !in s.running;
  }

  lemma MadeKeeps(s: Queue, addr: nat, when: int, repeat: bool, delta: nat, others: nat)
    requires Valid(s) && addr !in s.heap
    ensures Valid(Made(s, addr, when, repeat, delta, others))
  {
    var t := Made(s, addr, when, repeat, delta, others);
    MadeOwned(s, addr, t.heap[addr]);
    MadeSequenced(s, t, addr, when, repeat, delta, others);
    MadeResting(s, t, addr, when, repeat, delta, others);
    MadeHistory(s, t, addr, when, repeat, delta, others);
    hide Owned, Sequenced, AllResting, Ahead, Past, Final, Doomed, CancelLog, Phased;
  }

  lemma NotInIndexes(s: Queue, addr: nat)
    requires Owned(s.heap, s.pending, s.queued, s.running, s.timers, s.active) && addr !in s.queued
    ensures forall e :: e in s.timers ==> e.addr != addr
    ensures forall id :: id in s.active ==> id.addr != addr
  {
  }

  lemma {:induction false} AddressCount(es: seq<Entry>)
    requires DistinctAddresses(es)
    ensures |Addresses(es)| == |es|
  {
    if es != [] {
      var n := |es| - 1;
      AddressCount(es[..n]);
      assert es == es[..n] + [es[n]];
      assert forall e :: e in es <==> e in es[..n] || e == es[n];
      assert Addresses(es) == Addresses(es[..n]) + {es[n].addr};
    }
  }

  function IdAddresses(ids: set<TimerId>): set<nat> {
    set id | id in ids :: id.addr
  }

  lemma {:induction false} IdCount(ids: set<TimerId>)
    requires forall a, b :: a in ids && b in ids && a.addr == b.addr ==> a == b
    ensures |IdAddresses(ids)| == |ids|
  {
    if ids != {} {
      var id :| id in ids;
      IdCount(ids - {id});
      assert IdAddresses(ids) == IdAddresses(ids - {id}) + {id.addr};
    }
  }

  // The size asserts around every change of the indexes.
  lemma SizesAgree(s: Queue)
    requires Owned(s.heap, s.pending, s.queued, s.running, s.timers, s.active)
    ensures |s.timers| == |s.active|
  {
    assert DistinctAddresses(s.timers);
    AddressCount(s.timers);
    IdCount(s.active);
    assert Addresses(s.timers) == s.queued;
    assert IdAddresses(s.active) == s.queued by {
      assert forall a :: a in s.queued ==> TimerId(a, s.heap[a].sequence) in s.active;
    }
  }

  lemma CoreSizes(s: Queue)
    requires Core(s)
    ensures |s.timers| == |s.active|
  {
    SizesAgree(s);
  }

  lemma InsertedOwned(s: Queue, t: Queue, addr: nat)
    requires Owned(s.heap, s.pending, s.queued, s.running, s.timers, s.active)
    requires addr in s.heap && addr !in s.queued && Absent(s, addr)
    requires t == Inserted(s, addr)
    ensures Owned(t.heap, t.pending, t.queued, t.running, t.timers, t.active)
  {
  }

  lemma InsertedResting(s: Queue, t: Queue, addr: nat)
    requires Core(s) && Insertable(s, addr) && Absent(s, addr) && t == Inserted(s, addr)
    ensures AllResting(t.log, t.born, t.freedAt, t.heap, t.pending, t.running, t.done, t.batches)
  {
    forall i | 0 <= i < |t.log|
      ensures t.log[i].sequence in t.born
      ensures t.log[i].sequence !in t.freedAt && t.born[t.log[i].sequence].addr !in t.done ==>
                Resting(t.log[i], t.born[t.log[i].sequence], t.heap, t.pending, t.running, t.batches)
    {
      assert FiringOk(s.log[i], s.born, s.batches, s.lastNow);
      assert s.heap[addr].sequence in s.born;
    }
  }

  lemma InsertedDoomed(s: Queue, t: Queue, addr: nat)
    requires Core(s) && Insertable(s, addr) && Absent(s, addr) && t == Inserted(s, addr)
    ensures Doomed(t.cancelled, t.born, t.freedAt, t.running, t.canceling, t.batches)
  {
    forall q | q in t.cancelled && q !in t.freedAt
      ensures t.born[q].addr in t.running
    {
      assert s.heap[s.born[q].addr].sequence == q;
    }
  }

  lemma InsertedKeeps(s: Queue, addr: nat)
    requires Core(s) && Insertable(s, addr)
    ensures Sorted(s.timers)
    ensures Absent(s, addr)
    ensures Core(Inserted(s, addr))
  {
    NotInIndexes(s, addr);
    var t := Inserted(s, addr);
    InsertedOwned(s, t, addr);
    InsertedResting(s, t, addr);
    InsertedDoomed(s, t, addr);
  }

  lemma AddedIsPunctual(s: Queue, addr: nat)
    requires Punctual(s) && Sorted(s.timers) && addr in s.heap && Absent(s, addr)
    ensures Punctual(AddedInLoop(s, addr))
  {
  }

  lemma RearmedKeeps(s: Queue, when: int)
    requires Core(s)
    ensures Core(Rearmed(s, when))
  {
    hide Owned, Sequenced, AllResting, Ahead, Past, Final, Doomed, CancelLog;
  }

  lemma AddedInLoopKeeps(s: Queue, addr: nat)
    requires Valid(s) && addr in s.pending
    ensures Sorted(s.timers)
    ensures addr in s.heap && Absent(s, addr)
    ensures Valid(AddedInLoop(s, addr))
  {
    InsertedKeeps(s, addr);
    hide Core, Punctual, Sorted;
    AddedIsPunctual(s, addr);
    RearmedKeeps(Inserted(s, addr), s.heap[addr].expiration);
  }

  lemma ErasedOwned(s: Queue, t: Queue, id: TimerId)
    requires Owned(s.heap, s.pending, s.queued, s.running, s.timers, s.active) && id in s.active
    requires KeyOf(s, id.addr) in s.timers && t == CancelledInLoop(s, id)
    ensures Owned(t.heap, t.pending, t.queued, t.running, t.timers, t.active)
  {
    assert forall e :: e in s.timers && e.addr == id.addr ==> e == KeyOf(s, id.addr);
    assert forall a :: a in s.active && a.addr == id.addr ==> a == id;
  }

  lemma DeletedSequenced(s: Queue, t: Queue, addr: nat)
    requires Sequenced(s.heap, s.born, s.freedAt, s.numCreated) && addr in s.heap && t == Deleted(s, addr)
    ensures Sequenced(t.heap, t.born, t.freedAt, t.numCreated)
  {
  }

  lemma DeletedResting(s: Queue, t: Queue, addr: nat)
    requires Sequenced(s.heap, s.born, s.freedAt, s.numCreated) && addr in s.heap && t == Deleted(s, addr)
    requires AllResting(s.log, s.born, s.freedAt, s.heap, s.pending, s.running, s.done, s.batches)
    ensures AllResting(t.log, t.born, t.freedAt, t.heap, t.pending, t.running, t.done, t.batches)
  {
    forall i | 0 <= i < |t.log|
      ensures t.log[i].sequence in t.born
      ensures t.log[i].sequence !in t.freedAt && t.born[t.log[i].sequence].addr !in t.done ==>
                Resting(t.log[i], t.born[t.log[i].sequence], t.heap, t.pending, t.running, t.batches)
    {
      assert s.log[i].sequence in s.born;
    }
  }

  lemma DeletedDoomed(s: Queue, t: Queue, addr: nat)
    requires Sequenced(s.heap, s.born, s.freedAt, s.numCreated) && addr in s.heap && t == Deleted(s, addr)
    requires Doomed(s.cancelled, s.born, s.freedAt, s.running, s.canceling, s.batches)
    ensures Doomed(t.cancelled, t.born, t.freedAt, t.running, t.canceling, t.batches)
  {
  }

  // A cancel is recorded only while its timer is live and can be kept from
  // running again.
  lemma MarkedDoomed(s: Queue, t: Queue, id: TimerId)
    requires Valid(s) && Finds(s, id) && t == CancelledInLoop(s, id)
    requires id in s.active ==> id.addr in s.heap && KeyOf(s, id.addr) in s.timers
    ensures Doomed(t.cancelled, t.born, t.freedAt, t.running, t.canceling, t.batches)
    ensures CancelLog(t.log, t.cancelled)
  {
    assert id.sequence in s.born && s.born[id.sequence].addr == id.addr;
    forall i | 0 <= i < |t.log| && t.log[i].sequence in t.cancelled
      ensures t.log[i].batch <= t.cancelled[t.log[i].sequence]
    {
      assert FiringOk(s.log[i], s.born, s.batches, s.lastNow);
    }
    forall q | q in t.cancelled
      ensures q in t.born && t.cancelled[q] <= t.batches
      ensures q !in t.freedAt ==>
                t.cancelled[q] == t.batches && t.born[q].addr in t.running && TimerId(t.born[q].addr, q) in t.canceling
    {
      if q != id.sequence {
        assert q in s.cancelled;
      }
    }
  }

  lemma ErasedKeeps(s: Queue, id: TimerId)
    requires Valid(s) && id in s.active
    ensures id.addr in s.heap && KeyOf(s, id.addr) in s.timers
    ensures Valid(CancelledInLoop(s, id))
  {
    var t := CancelledInLoop(s, id);
    ErasedOwned(s, t, id);
    var d := Deleted(s, id.addr);
    DeletedSequenced(s, d, id.addr);
    DeletedResting(s, d, id.addr);
    MarkedDoomed(s, t, id);
    assert t.running == s.running && t.done == s.done;
    assert Final(t.log, t.freedAt);
    assert Ahead(t.log, t.heap, t.running, t.done, t.batches);
  }

  lemma CancelledInLoopKeeps(s: Queue, id: TimerId)
    requires Valid(s) && (s.handling ==> s.calling)
    ensures Sorted(s.timers)
    ensures id in s.active ==> id.addr in s.heap && KeyOf(s, id.addr) in s.timers
    ensures Valid(CancelledInLoop(s, id))
  {
    if id in s.active {
      ErasedKeeps(s, id);
    } else if Finds(s, id) {
      MarkedDoomed(s, CancelledInLoop(s, id), id);
    }
  }

  lemma SplitAddresses(s: Queue, k: nat)
    requires Owned(s.heap, s.pending, s.queued, s.running, s.timers, s.active) && k <= |s.timers|
    ensures forall e :: e in s.timers[k..] ==> e.addr !in Addresses(s.timers[..k])
    ensures forall a :: a in s.queued && a !in Addresses(s.timers[..k]) ==> KeyOf(s, a) in s.timers[k..]
    ensures Addresses(s.timers[..k]) <= s.queued
  {
    SplitSorted(s.timers, k);
    forall e | e in s.timers[k..]
      ensures e.addr !in Addresses(s.timers[..k])
    {
      forall f | f in s.timers[..k]
        ensures f.addr != e.addr
      {
        assert f in s.timers && e in s.timers && Less(f, e);
      }
    }
  }

  lemma BegunOwned(s: Queue, t: Queue)
    requires Owned(s.heap, s.pending, s.queued, s.running, s.timers, s.active) && s.running == {} && t == Begun(s)
    ensures Owned(t.heap, t.pending, t.queued, t.running, t.timers, t.active)
  {
    var k := ExpiredCount(s);
    SplitSorted(s.timers, k);
    SplitAddresses(s, k);
  }

  lemma BegunPast(s: Queue, t: Queue)
    requires Core(s) && !s.handling && t == Begun(s)
    ensures Past(t.log, t.born, t.batches, t.lastNow)
    ensures Ahead(t.log, t.heap, t.running, t.done, t.batches)
    ensures AllResting(t.log, t.born, t.freedAt, t.heap, t.pending, t.running, t.done, t.batches)
  {
    hide Owned, Sequenced, Doomed;
    forall i | 0 <= i < |t.log|
      ensures FiringOk(t.log[i], t.born, t.batches, t.lastNow)
      ensures t.log[i].batch < t.batches
      ensures t.log[i].sequence !in t.freedAt && t.born[t.log[i].sequence].addr !in t.done ==>
                Resting(t.log[i], t.born[t.log[i].sequence], t.heap, t.pending, t.running, t.batches)
    {
      assert FiringOk(s.log[i], s.born, s.batches, s.lastNow);
    }
  }

  lemma BegunDoomed(s: Queue, t: Queue)
    requires Core(s) && !s.handling && t == Begun(s)
    ensures Doomed(t.cancelled, t.born, t.freedAt, t.running, t.canceling, t.batches)
  {
  }

  lemma BegunPunctual(s: Queue)
    requires Core(s) && !s.handling
    ensures Punctual(Begun(s))
  {
    var t, k := Begun(s), ExpiredCount(s);
    if t.timers != [] {
      assert !Less(s.timers[k], Entry(s.clock, SENTRY));
      assert s.timers[k].when >= s.clock > 0;
    }
  }

  lemma BegunKeeps(s: Queue)
    requires Valid(s) && !s.handling
    ensures Valid(Begun(s))
  {
    var t := Begun(s);
    BegunOwned(s, t);
    BegunPast(s, t);
    BegunDoomed(s, t);
    BegunPunctual(s);
    hide Owned, Sequenced, Past, AllResting, Ahead, Doomed, Final, CancelLog, Punctual;
  }

  lemma FiredPast(s: Queue, t: Queue, e: Entry)
    requires Valid(s) && NextToFire(s, e) && t == Fired(s, e)
    ensures Past(t.log, t.born, t.batches, t.lastNow)
  {
    var q := s.heap[e.addr].sequence;
    forall i | 0 <= i < |s.log|
      ensures InOrder(s.log[i], t.log[|s.log|])
      ensures s.log[i].sequence == q ==> Spaced(s.log[i], t.log[|s.log|], s.born[q])
    {
      assert FiringOk(s.log[i], s.born, s.batches, s.lastNow);
      assert s.log[i].batch == s.batches ==> Less(Entry(s.log[i].when, s.log[i].addr), KeyOf(s, e.addr));
      assert s.log[i].sequence == q ==> Resting(s.log[i], s.born[q], s.heap, s.pending, s.running, s.batches);
    }
    assert forall i :: 0 <= i < |s.log| ==> t.log[i] == s.log[i];
  }

  lemma FiredAhead(s: Queue, t: Queue, e: Entry)
    requires Valid(s) && NextToFire(s, e) && t == Fired(s, e)
    ensures Ahead(t.log, t.heap, t.running, t.done, t.batches)
  {
    assert forall a :: a in t.running && a !in t.done ==> a in s.running - s.done && a != e.addr;
  }

  lemma FiredKeeps(s: Queue, e: Entry)
    requires Valid(s) && NextToFire(s, e)
    ensures Valid(Fired(s, e))
  {
    var t := Fired(s, e);
    FiredPast(s, t, e);
    FiredAhead(s, t, e);
    assert AllResting(t.log, t.born, t.freedAt, t.heap, t.pending, t.running, t.done, t.batches);
    assert CancelLog(t.log, t.cancelled);
    assert Final(t.log, t.freedAt);
  }

  lemma RunningLive(s: Queue)
    requires Valid(s)
    ensures s.done <= s.running <= s.heap.Keys && s.running !! s.pending && s.running !! s.queued
    ensures forall id :: id in s.active ==> id.addr in s.queued
  {
  }

  lemma RestartedOwned(s: Queue, t: Queue, addr: nat)
    requires Owned(s.heap, s.pending, s.queued, s.running, s.timers, s.active)
    requires Sequenced(s.heap, s.born, s.freedAt, s.numCreated)
    requires addr in s.heap && addr !in s.queued && t == Restarted(s, addr)
    ensures Owned(t.heap, t.pending, t.queued, t.running, t.timers, t.active)
    ensures Sequenced(t.heap, t.born, t.freedAt, t.numCreated)
  {
    NotInIndexes(s, addr);
    assert t.heap.Keys == s.heap.Keys;
  }

  lemma RestartedResting(s: Queue, t: Queue, addr: nat)
    requires Core(s) && addr in s.done && addr in s.heap && t == Restarted(s, addr)
    ensures AllResting(t.log, t.born, t.freedAt, t.heap, t.pending, t.running, t.done, t.batches)
    ensures Ahead(t.log, t.heap, t.running, t.done, t.batches)
  {
  }

  // Timer::restart moves a repeating timer one interval past the batch time and
  // touches nothing else.
  lemma RestartedKeeps(s: Queue, addr: nat)
    requires Valid(s) && addr in s.done
    ensures addr in s.heap && Valid(Restarted(s, addr))
    ensures var t := Restarted(s, addr);
      && t.heap[addr] == s.heap[addr].(expiration := s.lastNow + s.heap[addr].delta)
      && t == s.(heap := t.heap) && t.heap - {addr} == s.heap - {addr}
  {
    RunningLive(s);
    var t := Restarted(s, addr);
    RestartedOwned(s, t, addr);
    RestartedResting(s, t, addr);
    hide Owned, Sequenced, AllResting, Ahead, Past, Final, Doomed, CancelLog;
  }

  lemma DeletedOwned(s: Queue, t: Queue, addr: nat)
    requires Owned(s.heap, s.pending, s.queued, s.running, s.timers, s.active) && addr in s.running && t == Deleted(s, addr)
    ensures Owned(t.heap, t.pending, t.queued, t.running, t.timers, t.active)
  {
  }

  lemma SurvivorKeeps(s: Queue, addr: nat)
    requires Valid(s) && s.handling && addr in s.done && addr in s.heap && Survives(s, addr)
    ensures Absent(Restarted(s, addr), addr)
    ensures Core(Recycled(s, addr))
  {
    NotInIndexes(s, addr);
    RestartedKeeps(s, addr);
    InsertedKeeps(Restarted(s, addr), addr);
  }

  lemma DroppedKeeps(s: Queue, addr: nat)
    requires Valid(s) && s.handling && addr in s.done && addr in s.heap && !Survives(s, addr)
    ensures Core(Recycled(s, addr))
  {
    var t := Deleted(s, addr);
    DeletedOwned(s, t, addr);
    DeletedSequenced(s, t, addr);
    DeletedResting(s, t, addr);
    DeletedDoomed(s, t, addr);
    assert Final(t.log, t.freedAt);
    assert Ahead(t.log, t.heap, t.running, t.done, t.batches);
  }

  lemma RecycledKeeps(s: Queue, addr: nat)
    requires Valid(s) && s.handling && addr in s.done
    ensures addr in s.heap
    ensures Survives(s, addr) ==> Absent(Restarted(s, addr), addr)
    ensures Valid(Recycled(s, addr))
  {
    if Survives(s, addr) {
      SurvivorKeeps(s, addr);
    } else {
      DroppedKeeps(s, addr);
    }
  }

  lemma FinishedKeeps(s: Queue)
    requires Valid(s) && s.handling && !s.calling && s.running == {}
    ensures Valid(Finished(s))
  {
  }

  // The same steps with what they keep in their contracts.
  ghost function Make(s: Queue, addr: nat, when: int, repeat: bool, delta: nat, others: nat): (t: Queue)
    requires Valid(s) && addr !in s.heap
    ensures t == Made(s, addr, when, repeat, delta, others) && Valid(t)
  {
    MadeKeeps(s, addr, when, repeat, delta, others);
    Made(s, addr, when, repeat, delta, others)
  }

  ghost function TakeOver(s: Queue, addr: nat): (t: Queue)
    requires Core(s) && Insertable(s, addr)
    ensures Sorted(s.timers) && Absent(s, addr)
    ensures t == Inserted(s, addr) && Core(t)
  {
    InsertedKeeps(s, addr);
    Inserted(s, addr)
  }

  ghost function AddQueued(s: Queue, addr: nat): (t: Queue)
    requires Valid(s) && addr in s.pending
    ensures Insertable(s, addr) && Sorted(s.timers) && Absent(s, addr)
    ensures t == AddedInLoop(s, addr) && Valid(t)
  {
    AddedInLoopKeeps(s, addr);
    AddedInLoop(s, addr)
  }

  ghost function CancelTimer(s: Queue, id: TimerId): (t: Queue)
    requires Valid(s) && (s.handling ==> s.calling)
    ensures Sorted(s.timers) && (id in s.active ==> id.addr in s.heap && KeyOf(s, id.addr) in s.timers)
    ensures t == CancelledInLoop(s, id) && Valid(t)
  {
    CancelledInLoopKeeps(s, id);
    CancelledInLoop(s, id)
  }

  // ------------------------------------------------------ whole callbacks

  // What a callback body, or another thread while it runs, may do. Another
  // thread's addTimer only makes the timer; malloc never returns a live address.
  datatype Call =
    | Add(addr: nat, when: int, repeat: bool, delta: nat)
    | AddElsewhere(addr: nat, when: int, repeat: bool, delta: nat, others: nat)
    | Cancel(id: TimerId)
    | Elapse(micros: nat)

  ghost predicate Open(s: Queue) {
    Valid(s) && (s.handling ==> s.calling)
  }

  // A callback leaves the batch alone.
  ghost predicate SameBatch(s: Queue, t: Queue) {
    && t.running == s.running && t.done == s.done
    && t.handling == s.handling && t.calling == s.calling
    && t.batches == s.batches && t.lastNow == s.lastNow && t.log == s.log
    && s.canceling <= t.canceling
    && forall a :: a in s.running ==> a in s.heap && a in t.heap && t.heap[a] == s.heap[a]
  }

  lemma AddStays(s: Queue, addr: nat, when: int, repeat: bool, delta: nat)
    requires Open(s) && addr !in s.heap
    ensures var m := Made(s, addr, when, repeat, delta, 0);
      && Sorted(m.timers) && addr in m.heap && Absent(m, addr)
      && Open(AddedInLoop(m, addr)) && SameBatch(s, AddedInLoop(m, addr))
  {
    hide Core, Punctual, Sorted;
    RunningLive(s);
    MadeKeeps(s, addr, when, repeat, delta, 0);
    AddedInLoopKeeps(Made(s, addr, when, repeat, delta, 0), addr);
  }

  lemma MadeStays(s: Queue, addr: nat, when: int, repeat: bool, delta: nat, others: nat)
    requires Open(s) && addr !in s.heap
    ensures var m := Made(s, addr, when, repeat, delta, others); Open(m) && SameBatch(s, m)
  {
    hide Core, Punctual;
    RunningLive(s);
    MadeKeeps(s, addr, when, repeat, delta, others);
  }

  lemma CancelSameBatch(s: Queue, id: TimerId)
    requires Open(s) && Sorted(s.timers) && (id in s.active ==> id.addr in s.heap && KeyOf(s, id.addr) in s.timers)
    ensures SameBatch(s, CancelledInLoop(s, id))
  {
    RunningLive(s);
    hide Core, Punctual, Sorted, Erase, KeyOf;
    assert id in s.active ==> id.addr !in s.running;
  }

  lemma CancelStays(s: Queue, id: TimerId)
    requires Open(s)
    ensures Sorted(s.timers) && (id in s.active ==> id.addr in s.heap && KeyOf(s, id.addr) in s.timers)
    ensures Open(CancelledInLoop(s, id)) && SameBatch(s, CancelledInLoop(s, id))
  {
    CancelledInLoopKeeps(s, id);
    CancelSameBatch(s, id);
    hide Core, Punctual, Sorted, SameBatch, Erase;
  }

  lemma ElapseStays(s: Queue, micros: nat)
    requires Open(s)
    ensures Open(Elapsed(s, micros)) && SameBatch(s, Elapsed(s, micros))
  {
    hide Core, Punctual;
    RunningLive(s);
    ElapsedKeeps(s, micros);
  }

  ghost function Do(s: Queue, call: Call): (t: Queue)
    requires Open(s)
    ensures Open(t)
  {
    match call
    case Add(addr, when, repeat, delta) =>
      if addr in s.heap then s
      else
        AddStays(s, addr, when, repeat, delta);
        AddedInLoop(Made(s, addr, when, repeat, delta, 0), addr)
    case AddElsewhere(addr, when, repeat, delta, others) =>
      if addr in s.heap then s
      else
        MadeStays(s, addr, when, repeat, delta, others);
        Made(s, addr, when, repeat, delta, others)
    case Cancel(id) =>
      CancelStays(s, id);
      CancelledInLoop(s, id)
    case Elapse(micros) =>
      ElapseStays(s, micros);
      Elapsed(s, micros)
  }

  lemma DoStays(s: Queue, call: Call)
    requires Open(s)
    ensures SameBatch(s, Do(s, call))
  {
    hide Core, Punctual, Sorted;
    RunningLive(s);
    match call
    case Add(addr, when, repeat, delta) =>
      if addr !in s.heap { AddStays(s, addr, when, repeat, delta); }
    case AddElsewhere(addr, when, repeat, delta, others) =>
      if addr !in s.heap { MadeStays(s, addr, when, repeat, delta, others); }
    case Cancel(id) => CancelStays(s, id);
    case Elapse(micros) => ElapseStays(s, micros);
  }

  ghost function DoAll(s: Queue, calls: seq<Call>): (t: Queue)
    requires Open(s)
    ensures Open(t)
    decreases |calls|
  {
    if calls == [] then s else DoAll(Do(s, calls[0]), calls[1..])
  }

  lemma {:induction false} DoAllStays(s: Queue, calls: seq<Call>)
    requires Open(s)
    ensures SameBatch(s, DoAll(s, calls))
    decreases |calls|
  {
    hide Core, Punctual, Do;
    if calls == [] {
      RunningLive(s);
    } else {
      DoStays(s, calls[0]);
      DoAllStays(Do(s, calls[0]), calls[1..]);
    }
  }

  ghost predicate BatchReady(s: Queue, batch: seq<Entry>) {
    && Valid(s) && s.handling && s.calling
    && Sorted(batch)
    && Addresses(batch) == s.running - s.done
    && forall e :: e in batch ==> e.addr in s.heap && e.when == s.heap[e.addr].expiration && e.when <= s.lastNow
  }

  lemma FirstIsNext(s: Queue, batch: seq<Entry>)
    requires BatchReady(s, batch) && batch != []
    ensures NextToFire(s, batch[0])
  {
    SortedTail(batch);
    forall a | a in s.running - s.done && a in s.heap
      ensures a == batch[0].addr || Less(batch[0], KeyOf(s, a))
    {
      var e :| e in batch && e.addr == a;
    }
  }

  lemma TailAddresses(batch: seq<Entry>)
    requires batch != [] && forall e :: e in batch[1..] ==> e.addr != batch[0].addr
    ensures Addresses(batch[1..]) == Addresses(batch) - {batch[0].addr}
  {
    assert batch == [batch[0]] + batch[1..];
    assert forall e :: e in batch <==> e == batch[0] || e in batch[1..];
    forall a | a in Addresses(batch) && a != batch[0].addr
      ensures a in Addresses(batch[1..])
    {
      var e :| e in batch && e.addr == a;
      assert e in batch[1..];
    }
  }

  lemma RestReady(s: Queue, t: Queue, batch: seq<Entry>)
    requires BatchReady(s, batch) && batch != []
    requires Valid(t) && SameBatch(Fired(s, batch[0]), t)
    ensures BatchReady(t, batch[1..])
  {
    SortedTail(batch);
    TailAddresses(batch);
  }

  // The first timer of the batch starts to run.
  ghost function FireFirst(s: Queue, batch: seq<Entry>): (t: Queue)
    requires BatchReady(s, batch) && batch != []
    ensures batch[0].addr in s.heap && t == Fired(s, batch[0]) && Open(t)
  {
    FirstIsNext(s, batch);
    FiredKeeps(s, batch[0]);
    Fired(s, batch[0])
  }

  // It runs to the end.
  ghost function RunFirst(s: Queue, batch: seq<Entry>, script: seq<seq<Call>>): (t: Queue)
    requires BatchReady(s, batch) && batch != []
    ensures t == DoAll(FireFirst(s, batch), Body(script)) && BatchReady(t, batch[1..])
    ensures SameBatch(FireFirst(s, batch), t)
    ensures batch[0].addr in s.heap && t.log == s.log + [FiringOf(s, batch[0])]
    ensures t.batches == s.batches && t.lastNow == s.lastNow && t.running == s.running
    ensures forall e :: e in batch[1..] ==> e.addr in s.heap && e.addr in t.heap && s.heap[e.addr] == t.heap[e.addr]
  {
    assert forall e :: e in batch[1..] ==> e in batch && e.addr in s.running;
    var t := DoAll(FireFirst(s, batch), Body(script));
    DoAllStays(FireFirst(s, batch), Body(script));
    RestReady(s, t, batch);
    t
  }

  // The callbacks of the batch, with the body of each taken from the script.
  ghost function RunBatch(s: Queue, batch: seq<Entry>, script: seq<seq<Call>>): (t: Queue)
    requires BatchReady(s, batch)
    ensures BatchReady(t, [])
    ensures t.running == s.running && t.lastNow == s.lastNow && t.batches == s.batches
    decreases |batch|
  {
    if batch == [] then s
    else RunBatch(RunFirst(s, batch, script), batch[1..], Later(script))
  }

  function Body(script: seq<seq<Call>>): seq<Call> {
    if script == [] then [] else script[0]
  }

  function Later(script: seq<seq<Call>>): seq<seq<Call>> {
    if script == [] then [] else script[1..]
  }

  predicate DistinctAddresses(batch: seq<Entry>) {
    forall i, j :: 0 <= i < j < |batch| ==> batch[i].addr != batch[j].addr
  }

  ghost predicate RecycleReady(s: Queue, batch: seq<Entry>) {
    && Valid(s) && s.handling && !s.calling
    && s.running == s.done == Addresses(batch)
    && DistinctAddresses(batch)
  }

  lemma RestRecycles(s: Queue, batch: seq<Entry>)
    requires RecycleReady(s, batch) && batch != []
    ensures batch[0].addr in s.heap && Sorted(s.timers)
    ensures Survives(s, batch[0].addr) ==> Absent(Restarted(s, batch[0].addr), batch[0].addr)
    ensures RecycleReady(Recycled(s, batch[0].addr), batch[1..])
  {
    RecycledKeeps(s, batch[0].addr);
    assert forall i :: 1 <= i < |batch| ==> batch[i] == batch[1..][i - 1];
    TailAddresses(batch);
  }

  ghost function RecycleFirst(s: Queue, batch: seq<Entry>): (t: Queue)
    requires RecycleReady(s, batch) && batch != []
    ensures batch[0].addr in s.heap && Sorted(s.timers)
    ensures Survives(s, batch[0].addr) ==> Absent(Restarted(s, batch[0].addr), batch[0].addr)
    ensures t == Recycled(s, batch[0].addr) && RecycleReady(t, batch[1..]) && t.lastNow == s.lastNow
  {
    RestRecycles(s, batch);
    Recycled(s, batch[0].addr)
  }

  // The loop of reset.
  ghost function RecycleAll(s: Queue, batch: seq<Entry>): (t: Queue)
    requires RecycleReady(s, batch)
    ensures RecycleReady(t, [])
    decreases |batch|
  {
    if batch == [] then s else RecycleAll(RecycleFirst(s, batch), batch[1..])
  }

  function Batch(s: Queue): seq<Entry>
    requires Sorted(s.timers)
  {
    s.timers[..ExpiredCount(s)]
  }

  lemma BegunReady(s: Queue)
    requires Valid(s) && !s.handling
    ensures Sorted(s.timers)
    ensures BatchReady(Begun(s), Batch(s)) && DistinctAddresses(Batch(s))
  {
    BegunKeeps(s);
    var batch := Batch(s);
    SplitSorted(s.timers, ExpiredCount(s));
    forall e | e in batch
      ensures e.addr in s.heap && e.when == s.heap[e.addr].expiration && e.when <= s.clock
    {
      assert e in s.timers;
    }
    forall i, j | 0 <= i < j < |batch|
      ensures batch[i].addr != batch[j].addr
    {
      assert batch[i] in batch && batch[j] in batch;
      assert Less(batch[i], batch[j]);
    }
  }

  lemma CallsOver(r: Queue, batch: seq<Entry>)
    requires BatchReady(r, []) && r.running == Addresses(batch) && DistinctAddresses(batch)
    ensures RecycleReady(r.(calling := false), batch)
  {
    assert r.running - r.done == {};
    forall a | a in r.running
      ensures a in r.done
    {
      assert a !in r.running - r.done;
    }
  }

  ghost function RecycleOne(s: Queue, addr: nat): (t: Queue)
    requires Valid(s) && s.handling && addr in s.done
    ensures addr in s.heap && Sorted(s.timers)
    ensures Survives(s, addr) ==> Absent(Restarted(s, addr), addr)
    ensures Survives(s, addr) ==> Core(Restarted(s, addr)) && Insertable(Restarted(s, addr), addr)
    ensures t == Recycled(s, addr)
  {
    RecycledKeeps(s, addr);
    RestartedKeeps(s, addr);
    Recycled(s, addr)
  }

  ghost function StartOf(s: Queue): (t: Queue)
    requires Valid(s) && !s.handling
    ensures Sorted(s.timers) && t == Begun(s)
    ensures BatchReady(t, Batch(s)) && DistinctAddresses(Batch(s)) && t.running == Addresses(Batch(s))
  {
    BegunReady(s);
    Begun(s)
  }

  ghost function CallsDone(r: Queue, batch: seq<Entry>): (t: Queue)
    requires BatchReady(r, []) && r.running == Addresses(batch) && DistinctAddresses(batch)
    ensures t == r.(calling := false) && RecycleReady(t, batch)
  {
    CallsOver(r, batch);
    r.(calling := false)
  }

  ghost function Finish(s: Queue): (t: Queue)
    requires RecycleReady(s, [])
    ensures t == Finished(s) && Valid(t) && !t.handling
  {
    assert Addresses([]) == {};
    FinishedKeeps(s);
    Finished(s)
  }

  ghost function HandledRead(s: Queue, script: seq<seq<Call>>): (t: Queue)
    requires Valid(s) && !s.handling
    ensures Valid(t) && !t.handling
  {
    var r := RunBatch(StartOf(s), Batch(s), script);
    Finish(RecycleAll(CallsDone(r, Batch(s)), Batch(s)))
  }

  lemma CancelSizes(s: Queue, id: TimerId)
    requires Open(s)
    ensures |s.timers| == |s.active| && |CancelTimer(s, id).timers| == |CancelTimer(s, id).active|
  {
    CoreSizes(s);
    CoreSizes(CancelTimer(s, id));
  }

  lemma StartSizes(s: Queue)
    requires Valid(s) && !s.handling
    ensures Sorted(s.timers) && |s.timers| == |s.active|
    ensures |s.timers[|Batch(s)|..]| == |set id | id in s.active && id.addr !in Addresses(Batch(s)) :: id|
  {
    CoreSizes(s);
    CoreSizes(StartOf(s));
  }

  // ------------------------------------------------------------ whole runs

  datatype Event =
    | Outside(call: Call)          // in the loop outside handleRead, or in another thread
    | RunAdd(addr: nat)            // an addTimerInLoop functor runs
    | Read(script: seq<seq<Call>>) // the timerfd is handled

  function Initial(now: int): Queue {
    Queue(map[], 0, [], {}, false, {}, {}, now, Disarmed, {}, {}, {}, false, 0, 0, map[], map[], map[], [])
  }

  ghost function Called(s: Queue, call: Call): (t: Queue)
    requires Valid(s) && !s.handling
    ensures t == Do(s, call) && Valid(t) && !t.handling
  {
    DoStays(s, call);
    Do(s, call)
  }

  ghost function RanAdd(s: Queue, addr: nat): (t: Queue)
    requires Valid(s) && !s.handling
    ensures Valid(t) && !t.handling
  {
    if addr in s.pending then AddQueued(s, addr) else s
  }

  ghost function Next(s: Queue, event: Event): (t: Queue)
    requires Valid(s) && !s.handling
    ensures Valid(t) && !t.handling
  {
    match event
    case Outside(call) => Called(s, call)
    case RunAdd(addr) => RanAdd(s, addr)
    case Read(script) => HandledRead(s, script)
  }

  // Every run from an empty queue keeps the invariant.
  ghost function Run(now: int, events: seq<Event>): (t: Queue)
    requires now > 0
    ensures Valid(t) && !t.handling
  {
    if events == [] then Initial(now) else Next(Run(now, events[..|events| - 1]), events[|events| - 1])
  }

  // --------------------------------------------------- consequences of runs

  // In every state of every run a live timer is either held by a queued functor
  // or in both indexes under its current key, and a timer made is either live
  // or freed.
  lemma SingleOwner(now: int, events: seq<Event>)
    requires now > 0
    ensures var s := Run(now, events);
      && s.pending <= s.heap.Keys
      && (forall a :: a in s.heap ==> (a in s.pending <==> KeyOf(s, a) !in s.timers))
      && (forall a :: a in s.heap ==> (a in s.pending <==> TimerId(a, s.heap[a].sequence) !in s.active))
      && (forall q :: q in s.born ==>
            (q in s.freedAt <==> !(s.born[q].addr in s.heap && s.heap[s.born[q].addr].sequence == q)))
  {
    var s := Run(now, events);
    forall a | a in s.pending
      ensures KeyOf(s, a) !in s.timers && TimerId(a, s.heap[a].sequence) !in s.active
    {
      NotInIndexes(s, a);
    }
  }

  // The indexes hold nothing but live timers under their current keys.
  lemma IndexesAgree(now: int, events: seq<Event>)
    requires now > 0
    ensures var s := Run(now, events);
      && (forall e :: e in s.timers ==>
            e.addr in s.heap && e == KeyOf(s, e.addr) && TimerId(e.addr, s.heap[e.addr].sequence) in s.active)
      && (forall id :: id in s.active ==>
            id.addr in s.heap && s.heap[id.addr].sequence == id.sequence && KeyOf(s, id.addr) in s.timers)
  {
    var s := Run(now, events);
    assert Owned(s.heap, s.pending, s.queued, s.running, s.timers, s.active);
  }

  // No callback before its time; batches in order of expiration; a one-shot at
  // most once; runs of a repeating timer at least its interval apart; nothing
  // after the timer is freed.
  lemma FiringSemantics(now: int, events: seq<Event>)
    requires now > 0
    ensures var s := Run(now, events);
      && (forall i :: 0 <= i < |s.log| ==> s.log[i].when <= s.log[i].now && s.log[i].sequence in s.born)
      && (forall i, j :: 0 <= i < j < |s.log| ==> InOrder(s.log[i], s.log[j]))
      && (forall i, j :: 0 <= i < j < |s.log| && s.log[i].sequence == s.log[j].sequence ==>
            Spaced(s.log[i], s.log[j], s.born[s.log[i].sequence]))
      && (forall i :: 0 <= i < |s.log| && s.log[i].sequence in s.freedAt ==> i < s.freedAt[s.log[i].sequence])
  {
  }

  // A cancel that found its timer frees it by the time handleRead is over, and
  // afterwards it only ran in the batch that was being executed.
  lemma CancelIsFinal(now: int, events: seq<Event>)
    requires now > 0
    ensures var s := Run(now, events);
      && (forall q :: q in s.cancelled ==> q in s.freedAt)
      && (forall i :: 0 <= i < |s.log| && s.log[i].sequence in s.cancelled ==>
            s.log[i].batch <= s.cancelled[s.log[i].sequence])
  {
  }

  // The cancel of a live timer takes hold exactly when its add functor has run;
  // before that only the set of cancels of a running batch may change.
  lemma CancelTakesHold(s: Queue, id: TimerId)
    requires Open(s) && id.addr in s.heap && s.heap[id.addr].sequence == id.sequence
    ensures Finds(s, id) <==> id.addr !in s.pending
    ensures Finds(s, id) ==> id.sequence in CancelTimer(s, id).cancelled
    ensures !Finds(s, id) ==>
              var t := CancelTimer(s, id);
              t == s.(canceling := t.canceling)
  {
    if id.addr !in s.queued {
      NotInIndexes(s, id.addr);
    }
  }

  // addTimerInLoop puts exactly the new timer into both indexes, leaves every
  // timer as it was, and re-arms the kernel timer exactly when the new one is
  // the first to expire.
  lemma AddTakesHold(s: Queue, addr: nat)
    requires Valid(s) && addr in s.pending
    ensures var t := AddQueued(s, addr);
      && addr in s.heap && t.heap == s.heap && t.pending == s.pending - {addr}
      && (forall e :: e in t.timers <==> e == KeyOf(s, addr) || e in s.timers)
      && (forall id :: id in t.active <==> id == TimerId(addr, s.heap[addr].sequence) || id in s.active)
      && t.timerfd
      == (if s.timers == [] || s.heap[addr].expiration < s.timers[0].when
          then Armed(Larger(s.heap[addr].expiration, s.clock + CLAMP), s.clock) else s.timerfd)
  {
    hide Core, Punctual;
    var t := AddQueued(s, addr);
    assert t.timers == Insert(s.timers, KeyOf(s, addr));
  }

  // Outside handleRead the kernel timer is readable, or will be, in time for
  // the earliest expiration.
  lemma NeverArmedTooLate(now: int, events: seq<Event>, clock: int)
    requires now > 0
    ensures var s := Run(now, events);
      s.timers != [] ==>
        && InTime(s.timers[0].when, s.timerfd)
        && (clock >= Larger(s.timers[0].when, s.timerfd.since + CLAMP) ==> s.timerfd.Readable(clock))
  {
    hide Core, Run;
    var s := Run(now, events);
    assert Punctual(s);
  }

  function Firings(heap: map<nat, Timer>, batch: seq<Entry>, n: nat, now: int): (fs: seq<Firing>)
    ensures |fs| == |batch|
  {
    if batch == [] then []
    else
      var q := if batch[0].addr in heap then heap[batch[0].addr].sequence else 0;
      [Firing(q, batch[0].addr, n, now, batch[0].when)] + Firings(heap, batch[1..], n, now)
  }

  lemma {:induction false} FiringsAgree(h: map<nat, Timer>, g: map<nat, Timer>, batch: seq<Entry>, n: nat, now: int)
    requires forall e :: e in batch ==> e.addr in h && e.addr in g && h[e.addr] == g[e.addr]
    ensures Firings(h, batch, n, now) == Firings(g, batch, n, now)
  {
    if batch != [] {
      FiringsAgree(h, g, batch[1..], n, now);
    }
  }

  lemma {:induction false} RunBatchLogs(s: Queue, batch: seq<Entry>, script: seq<seq<Call>>)
    requires BatchReady(s, batch)
    ensures RunBatch(s, batch, script).log == s.log + Firings(s.heap, batch, s.batches, s.lastNow)
    decreases |batch|
  {
    hide BatchReady, RunFirst, FireFirst, Fired, SameBatch;
    if batch == [] {
      assert s.log + [] == s.log;
    } else {
      var t := RunFirst(s, batch, script);
      RunBatchLogs(t, batch[1..], Later(script));
      FiringsAgree(s.heap, t.heap, batch[1..], s.batches, s.lastNow);
      Associate(s.log, FiringOf(s, batch[0]), Firings(s.heap, batch[1..], s.batches, s.lastNow));
    }
  }

  lemma Associate(log: seq<Firing>, f: Firing, rest: seq<Firing>)
    ensures (log + [f]) + rest == log + ([f] + rest)
  {
  }

  lemma {:induction false} RecycleAllLogs(s: Queue, batch: seq<Entry>)
    requires RecycleReady(s, batch)
    ensures RecycleAll(s, batch).log == s.log
    decreases |batch|
  {
    hide Core, Punctual;
    if batch != [] {
      RestRecycles(s, batch);
      RecycleAllLogs(Recycled(s, batch[0].addr), batch[1..]);
    }
  }

  // handleRead runs exactly the expired timers, each once, in order, whatever
  // the callbacks do.
  lemma HandledReadRuns(s: Queue, script: seq<seq<Call>>)
    requires Valid(s) && !s.handling
    ensures Sorted(s.timers)
    ensures HandledRead(s, script).log == s.log + Firings(s.heap, Batch(s), s.batches + 1, s.clock)
  {
    hide Core, Punctual, Batch, RunBatch, RecycleAll, BatchReady, RecycleReady, Firings;
    BegunReady(s);
    RunBatchLogs(Begun(s), Batch(s), script);
    var r := RunBatch(Begun(s), Batch(s), script);
    CallsOver(r, Batch(s));
    RecycleAllLogs(r.(calling := false), Batch(s));
  }

  // That batch is every timer that expired before now, and of those that expire
  // just now the ones whose address is below the sentry.
  lemma DueTimersRun(s: Queue, e: Entry)
    requires Valid(s) && e in s.timers
    ensures e in Batch(s) <==> e.when < s.clock || (e.when == s.clock && e.addr < SENTRY)
  {
    var i :| 0 <= i < |s.timers| && s.timers[i] == e;
    var k := ExpiredCount(s);
    if i < k {
      assert Batch(s)[i] == e;
    } else {
      assert !Less(e, Entry(s.clock, SENTRY));
      assert forall j :: 0 <= j < k ==> Less(s.timers[j], s.timers[i]);
    }
  }

  // The assert of getExpired: what is left starts after now.
  predicate SentryAssert(s: Queue)
    requires Sorted(s.timers)
  {
    var k := ExpiredCount(s);
    k == |s.timers| || s.clock < s.timers[k].when
  }

  // The sentry address is the 32-bit maximum on every platform, so the assert
  // holds if and only if no timer above it expires exactly now.
  lemma SentrySeparates(s: Queue)
    requires Sorted(s.timers)
    ensures SentryAssert(s) <==> forall e :: e in s.timers && e.when == s.clock ==> e.addr < SENTRY
  {
    var k, sentry := ExpiredCount(s), Entry(s.clock, SENTRY);
    assert forall i :: k < i < |s.timers| ==> Less(s.timers[k], s.timers[i]);
    if SentryAssert(s) {
      forall e | e in s.timers && e.when == s.clock
        ensures e.addr < SENTRY
      {
        var i :| 0 <= i < |s.timers| && s.timers[i] == e;
        assert i < k ==> Less(s.timers[i], sentry);
      }
    } else {
      assert s.timers[k] in s.timers && !Less(s.timers[k], sentry);
    }
  }

  // Any address above it makes it fail: a timer due in 200 microseconds, of which
  // all have passed when the kernel timer is readable.
  lemma SentryMisses(now: int, addr: nat)
    requires now > 0 && addr >= SENTRY
    ensures var s := Run(now, [Outside(Add(addr, now + 200, false, 0)), Outside(Elapse(200))]);
      Sorted(s.timers) && s.timerfd.Readable(s.clock) && !SentryAssert(s)
  {
    var first := [Outside(Add(addr, now + 200, false, 0))];
    var events := first + [Outside(Elapse(200))];
    assert events == [Outside(Add(addr, now + 200, false, 0)), Outside(Elapse(200))];
    assert first[..0] == [] && events[..1] == first;
    assert Run(now, []) == Initial(now);
    var s1 := Run(now, first);
    assert s1 == AddedInLoop(Made(Initial(now), addr, now + 200, false, 0, 0), addr);
    var s := Run(now, events);
    assert s == Elapsed(s1, 200);
    assert Entry(now + 200, addr) in s.timers;
    SentrySeparates(s);
  }

  // What becomes of a timer of the batch once reset has treated it.
  ghost predicate Treated(s: Queue, t: Queue, addr: nat)
    requires addr in s.heap
  {
    if Survives(s, addr) then
      && addr in t.heap
      && t.heap[addr] == s.heap[addr].(expiration := s.lastNow + s.heap[addr].delta)
      && KeyOf(t, addr) in t.timers
    else
      && s.heap[addr].sequence in t.freedAt
  }

  lemma {:induction false} RecycleAllLeavesOthers(s: Queue, batch: seq<Entry>, addr: nat)
    requires RecycleReady(s, batch) && addr in s.queued
    ensures var t := RecycleAll(s, batch);
      addr in s.heap && addr in t.heap && t.heap[addr] == s.heap[addr] && KeyOf(t, addr) in t.timers
    decreases |batch|
  {
    if batch != [] {
      RestRecycles(s, batch);
      assert addr in s.heap && addr != batch[0].addr;
      RecycleAllLeavesOthers(Recycled(s, batch[0].addr), batch[1..], addr);
    }
  }

  lemma {:induction false} RecycleAllStaysFreed(s: Queue, batch: seq<Entry>, q: nat)
    requires RecycleReady(s, batch) && q in s.freedAt
    ensures q in RecycleAll(s, batch).freedAt
    decreases |batch|
  {
    hide Core, Punctual;
    if batch != [] {
      RestRecycles(s, batch);
      RecycleAllStaysFreed(Recycled(s, batch[0].addr), batch[1..], q);
    }
  }

  // reset restarts exactly the repeating timers of the batch that no callback
  // cancelled and frees all others.
  lemma {:induction false} RecycleAllTreats(s: Queue, batch: seq<Entry>, e: Entry)
    requires RecycleReady(s, batch) && e in batch && e.addr in s.heap
    ensures Treated(s, RecycleAll(s, batch), e.addr)
    decreases |batch|
  {
    hide Core, Punctual;
    var b := batch[0].addr;
    RestRecycles(s, batch);
    var r := Recycled(s, b);
    if e.addr == b {
      if Survives(s, b) {
        RecycleAllLeavesOthers(r, batch[1..], b);
      } else {
        RecycleAllStaysFreed(r, batch[1..], s.heap[b].sequence);
      }
    } else {
      assert e in batch[1..];
      RecycleAllTreats(r, batch[1..], e);
    }
  }

  lemma {:induction false} RunBatchFrame(s: Queue, batch: seq<Entry>, script: seq<seq<Call>>, addr: nat)
    requires BatchReady(s, batch) && addr in s.running && addr in s.heap
    ensures var t := RunBatch(s, batch, script);
      addr in t.heap && t.heap[addr] == s.heap[addr]
    decreases |batch|
  {
    hide Core, Punctual, NextToFire;
    if batch != [] {
      var t := RunFirst(s, batch, script);
      RunBatchFrame(t, batch[1..], Later(script), addr);
    }
  }

  lemma {:induction false} RecycleAllFrame(s: Queue, batch: seq<Entry>)
    requires RecycleReady(s, batch)
    ensures var t := RecycleAll(s, batch); t.canceling == s.canceling && t.lastNow == s.lastNow
    decreases |batch|
  {
    hide Core, Punctual;
    if batch != [] {
      RestRecycles(s, batch);
      RecycleAllFrame(Recycled(s, batch[0].addr), batch[1..]);
    }
  }

  // One of the first n bodies of the script cancels the timer.
  predicate CancelledBy(script: seq<seq<Call>>, n: nat, id: TimerId) {
    n > 0 && (Cancel(id) in Body(script) || CancelledBy(Later(script), n - 1, id))
  }

  lemma DoCancels(s: Queue, call: Call, id: TimerId)
    requires Open(s) && s.handling && id.addr in s.running
    ensures id in Do(s, call).canceling <==> id in s.canceling || call == Cancel(id)
  {
    RunningLive(s);
    hide Core, Punctual;
  }

  lemma {:induction false} DoAllCancels(s: Queue, calls: seq<Call>, id: TimerId)
    requires Open(s) && s.handling && id.addr in s.running
    ensures id in DoAll(s, calls).canceling <==> id in s.canceling || Cancel(id) in calls
    decreases |calls|
  {
    hide Core, Punctual, Do;
    if calls != [] {
      DoStays(s, calls[0]);
      DoCancels(s, calls[0], id);
      DoAllCancels(Do(s, calls[0]), calls[1..], id);
      assert Cancel(id) in calls <==> calls[0] == Cancel(id) || Cancel(id) in calls[1..];
    }
  }

  lemma RunFirstCancels(s: Queue, batch: seq<Entry>, script: seq<seq<Call>>, id: TimerId)
    requires BatchReady(s, batch) && batch != [] && id.addr in s.running
    ensures var t := RunFirst(s, batch, script);
      id.addr in t.running && (id in t.canceling <==> id in s.canceling || Cancel(id) in Body(script))
  {
    var f := FireFirst(s, batch);
    assert f.handling && f.running == s.running && f.canceling == s.canceling;
    hide Core, Punctual, DoAll, FireFirst, BatchReady;
    DoAllCancels(f, Body(script), id);
  }

  lemma {:induction false} RunBatchCancels(s: Queue, batch: seq<Entry>, script: seq<seq<Call>>, id: TimerId)
    requires BatchReady(s, batch) && id.addr in s.running
    ensures id in RunBatch(s, batch, script).canceling <==> id in s.canceling || CancelledBy(script, |batch|, id)
    decreases |batch|
  {
    if batch != [] {
      assert CancelledBy(script, |batch|, id) <==>
        Cancel(id) in Body(script) || CancelledBy(Later(script), |batch[1..]|, id);
      RunBatchUnfolds(s, batch, script);
      RunFirstCancels(s, batch, script, id);
      hide *;
      RunBatchCancels(RunFirst(s, batch, script), batch[1..], Later(script), id);
    }
  }

  lemma RunBatchUnfolds(s: Queue, batch: seq<Entry>, script: seq<seq<Call>>)
    requires BatchReady(s, batch) && batch != []
    ensures RunBatch(s, batch, script) == RunBatch(RunFirst(s, batch, script), batch[1..], Later(script))
  {
    hide BatchReady, RunFirst, FireFirst;
  }

  // A timer of the batch lives on exactly when it repeats and no callback of
  // the batch cancels it, and then for one interval from the batch time.
  ghost predicate Outcome(s: Queue, script: seq<seq<Call>>, t: Queue, addr: nat)
    requires addr in s.heap && Sorted(s.timers)
  {
    var timer := s.heap[addr];
    if timer.repeat && !CancelledBy(script, |Batch(s)|, TimerId(addr, timer.sequence)) then
      && addr in t.heap
      && t.heap[addr] == timer.(expiration := s.clock + timer.delta)
      && KeyOf(t, addr) in t.timers
    else
      timer.sequence in t.freedAt
  }

  lemma HandledReadOutcome(s: Queue, script: seq<seq<Call>>, e: Entry)
    requires Valid(s) && !s.handling && Sorted(s.timers) && e in Batch(s)
    ensures e.addr in s.heap && Outcome(s, script, HandledRead(s, script), e.addr)
  {
    hide Core, Punctual, Batch, RunBatch, RecycleAll, BatchReady, RecycleReady, CancelledBy;
    BegunReady(s);
    InBatch(s, e);
    var b := Begun(s);
    var r := RunBatch(b, Batch(s), script);
    RunBatchFrame(b, Batch(s), script, e.addr);
    RunBatchCancels(b, Batch(s), script, TimerId(e.addr, s.heap[e.addr].sequence));
    CallsOver(r, Batch(s));
    var c := r.(calling := false);
    RecycleAllTreats(c, Batch(s), e);
    RecycleAllFrame(c, Batch(s));
  }

  lemma InBatch(s: Queue, e: Entry)
    requires Valid(s) && !s.handling && Sorted(s.timers) && e in Batch(s)
    ensures e.addr in s.heap && e.addr in Begun(s).running
  {
    SplitSorted(s.timers, ExpiredCount(s));
    assert e in s.timers;
  }

  // ------------------------------------------------- the fate of one timer

  lemma AddedFrame(s: Queue, addr: nat)
    requires Sorted(s.timers) && addr in s.heap && Absent(s, addr)
    ensures var t := AddedInLoop(s, addr);
      && t.heap == s.heap && t.pending == s.pending - {addr} && t.numCreated == s.numCreated
      && t.clock == s.clock && t.freedAt == s.freedAt
  {
    hide *;
    AddedIsInserted(s, addr);
    InsertedFrame(s, addr);
  }

  lemma AddedIsInserted(s: Queue, addr: nat)
    requires Sorted(s.timers) && addr in s.heap && Absent(s, addr)
    ensures AddedInLoop(s, addr) == Inserted(s, addr).(timerfd := AddedInLoop(s, addr).timerfd)
  {
    hide Sorted, OrderedEntries.Insert, EarliestChanged, Absent, KeyOf, Larger, Inserted;
  }

  lemma InsertedFrame(s: Queue, addr: nat)
    requires Sorted(s.timers) && addr in s.heap && Absent(s, addr)
    ensures var t := Inserted(s, addr);
      && t.heap == s.heap && t.pending == s.pending - {addr} && t.numCreated == s.numCreated
      && t.clock == s.clock && t.freedAt == s.freedAt
  {
    hide Sorted, OrderedEntries.Insert, Absent, KeyOf;
  }

  lemma AddFrame(s: Queue, call: Call)
    requires Open(s) && call.Add? && call.addr !in s.heap
    ensures var t, m := Do(s, call), Made(s, call.addr, call.when, call.repeat, call.delta, 0);
      && t.heap == m.heap && t.pending == m.pending - {call.addr} && t.numCreated == m.numCreated
      && t.clock == m.clock && t.freedAt == m.freedAt
  {
    hide Core, Punctual, Sorted, Absent, AddedInLoop, Made;
    AddStays(s, call.addr, call.when, call.repeat, call.delta);
    AddedFrame(Made(s, call.addr, call.when, call.repeat, call.delta, 0), call.addr);
  }

  lemma AddElsewhereFrame(s: Queue, call: Call)
    requires Open(s) && call.AddElsewhere? && call.addr !in s.heap
    ensures Do(s, call) == Made(s, call.addr, call.when, call.repeat, call.delta, call.others)
  {
    hide Core, Punctual, Made;
  }

  lemma CancelFrame(s: Queue, id: TimerId)
    requires Open(s)
    ensures var t := Do(s, Cancel(id));
      && t.heap == (if id in s.active then s.heap - {id.addr} else s.heap)
      && t.pending == s.pending && t.clock == s.clock && s.freedAt.Keys <= t.freedAt.Keys
  {
    hide Core, Punctual, Sorted, Erase, KeyOf;
    CancelStays(s, id);
  }

  lemma NewSequence(s: Queue)
    requires Valid(s)
    ensures forall q :: q in s.born ==> q <= s.numCreated
    ensures s.pending <= s.heap.Keys
    ensures forall id :: id in s.active ==> id.addr in s.heap && id.sequence == s.heap[id.addr].sequence
  {
    hide Punctual, Phased, Past, Final, AllResting, Ahead, Doomed, CancelLog;
  }

  // addTimer makes a timer with exactly these values under a sequence number
  // that was never used, in the queue or waiting for its functor; every other
  // timer is as it was.
  lemma AddMakes(s: Queue, call: Call)
    requires Open(s) && (call.Add? || call.AddElsewhere?) && call.addr !in s.heap
    ensures var t := Do(s, call);
      && t.heap == s.heap[call.addr := Timer(call.when, call.delta, call.repeat, t.numCreated)]
      && t.numCreated !in s.born
      && s.numCreated + (if call.AddElsewhere? then call.others else 0) < t.numCreated
      && t.pending == (if call.Add? then s.pending else s.pending + {call.addr})
  {
    NewSequence(s);
    hide Core, Punctual;
    if call.Add? {
      AddFrame(s, call);
      hide Open, Do;
      assert s.pending + {call.addr} - {call.addr} == s.pending;
    } else {
      AddElsewhereFrame(s, call);
      hide Open, Do;
    }
  }

  // A call leaves every timer alone that it does not cancel, and only time moves
  // the clock.
  lemma DoLeaves(s: Queue, call: Call, addr: nat)
    requires Open(s) && addr in s.heap && call != Cancel(TimerId(addr, s.heap[addr].sequence))
    ensures var t := Do(s, call);
      && addr in t.heap && t.heap[addr] == s.heap[addr]
      && (addr in t.pending <==> addr in s.pending)
      && t.clock == s.clock + if call.Elapse? then call.micros else 0
  {
    NewSequence(s);
    if call.Add? && call.addr !in s.heap {
      AddFrame(s, call);
      hide Open, Do;
    } else if call.Cancel? {
      CancelFrame(s, call.id);
      hide Open, Do;
    } else {
      hide Core, Punctual;
    }
  }

  lemma DoFreed(s: Queue, call: Call, q: nat)
    requires Open(s) && q in s.freedAt
    ensures q in Do(s, call).freedAt
  {
    if call.Add? && call.addr !in s.heap {
      AddFrame(s, call);
      hide Open, Do;
    } else if call.Cancel? {
      CancelFrame(s, call.id);
      hide Open, Do;
    } else {
      hide Core, Punctual;
    }
  }

  // From s to t timer addr and its holder stay as they are.
  ghost predicate SameTimer(s: Queue, t: Queue, addr: nat)
    requires addr in s.heap
  {
    addr in t.heap && t.heap[addr] == s.heap[addr] && (addr in t.pending <==> addr in s.pending)
  }

  function IdOf(s: Queue, addr: nat): TimerId
    requires addr in s.heap
  {
    TimerId(addr, s.heap[addr].sequence)
  }

  lemma {:induction false} DoAllLeaves(s: Queue, calls: seq<Call>, addr: nat)
    requires Open(s) && addr in s.heap && Cancel(IdOf(s, addr)) !in calls
    ensures SameTimer(s, DoAll(s, calls), addr)
    decreases |calls|
  {
    hide Open, Do;
    if calls != [] {
      DoLeaves(s, calls[0], addr);
      DoAllLeaves(Do(s, calls[0]), calls[1..], addr);
    }
  }

  lemma {:induction false} DoAllFreed(s: Queue, calls: seq<Call>, q: nat)
    requires Open(s) && q in s.freedAt
    ensures q in DoAll(s, calls).freedAt
    decreases |calls|
  {
    hide Open, Do;
    if calls != [] {
      DoFreed(s, calls[0], q);
      DoAllFreed(Do(s, calls[0]), calls[1..], q);
    }
  }

  lemma RunFirstLeaves(s: Queue, batch: seq<Entry>, script: seq<seq<Call>>, addr: nat)
    requires BatchReady(s, batch) && batch != [] && addr in s.heap && Cancel(IdOf(s, addr)) !in Body(script)
    ensures SameTimer(s, RunFirst(s, batch, script), addr)
  {
    var f := FireFirst(s, batch);
    assert f.heap == s.heap && f.pending == s.pending;
    hide BatchReady, Open, Do, DoAll, FireFirst;
    DoAllLeaves(f, Body(script), addr);
  }

  lemma RunFirstFreed(s: Queue, batch: seq<Entry>, script: seq<seq<Call>>, q: nat)
    requires BatchReady(s, batch) && batch != [] && q in s.freedAt
    ensures q in RunFirst(s, batch, script).freedAt
  {
    var f := FireFirst(s, batch);
    assert f.freedAt == s.freedAt;
    hide BatchReady, Open, Do, DoAll, FireFirst;
    DoAllFreed(f, Body(script), q);
  }

  lemma SameTwice(s: Queue, t: Queue, u: Queue, addr: nat)
    requires addr in s.heap && SameTimer(s, t, addr) && addr in t.heap && SameTimer(t, u, addr)
    ensures SameTimer(s, u, addr)
  {
  }

  lemma {:induction false} RunBatchLeaves(s: Queue, batch: seq<Entry>, script: seq<seq<Call>>, addr: nat)
    requires BatchReady(s, batch) && addr in s.heap && !CancelledBy(script, |batch|, IdOf(s, addr))
    ensures SameTimer(s, RunBatch(s, batch, script), addr)
    decreases |batch|
  {
    if batch != [] {
      hide BatchReady, RunFirst;
      RunBatchUnfolds(s, batch, script);
      RunFirstLeaves(s, batch, script, addr);
      var t := RunFirst(s, batch, script);
      assert IdOf(t, addr) == IdOf(s, addr);
      assert !CancelledBy(Later(script), |batch[1..]|, IdOf(s, addr));
      hide *;
      RunBatchLeaves(t, batch[1..], Later(script), addr);
      SameTwice(s, t, RunBatch(s, batch, script), addr);
    }
  }

  lemma {:induction false} RunBatchFreed(s: Queue, batch: seq<Entry>, script: seq<seq<Call>>, q: nat)
    requires BatchReady(s, batch) && q in s.freedAt
    ensures q in RunBatch(s, batch, script).freedAt
    decreases |batch|
  {
    if batch != [] {
      hide BatchReady, RunFirst;
      RunBatchUnfolds(s, batch, script);
      RunFirstFreed(s, batch, script, q);
      RunBatchFreed(RunFirst(s, batch, script), batch[1..], Later(script), q);
    }
  }

  lemma {:induction false} RecycleAllLeaves(s: Queue, batch: seq<Entry>, addr: nat)
    requires RecycleReady(s, batch) && addr in s.heap && addr !in s.running
    ensures SameTimer(s, RecycleAll(s, batch), addr)
    decreases |batch|
  {
    hide Core, Punctual;
    if batch != [] {
      RestRecycles(s, batch);
      assert batch[0].addr in Addresses(batch);
      RecycleAllLeaves(Recycled(s, batch[0].addr), batch[1..], addr);
    }
  }

  // handleRead leaves every timer alone that is not in its batch and that no
  // callback of the batch cancels.
  lemma HandledReadLeaves(s: Queue, script: seq<seq<Call>>, addr: nat)
    requires Valid(s) && !s.handling && Sorted(s.timers) && addr in s.heap && addr !in Addresses(Batch(s))
    requires !CancelledBy(script, |Batch(s)|, IdOf(s, addr))
    ensures SameTimer(s, HandledRead(s, script), addr)
  {
    hide Core, Punctual, Batch, RunBatch, RecycleAll, BatchReady, RecycleReady, CancelledBy;
    var b := StartOf(s);
    var r := RunBatch(b, Batch(s), script);
    RunBatchLeaves(b, Batch(s), script, addr);
    var c := CallsDone(r, Batch(s));
    RecycleAllLeaves(c, Batch(s), addr);
  }

  lemma HandledReadFreed(s: Queue, script: seq<seq<Call>>, q: nat)
    requires Valid(s) && !s.handling && q in s.freedAt
    ensures q in HandledRead(s, script).freedAt
  {
    hide Core, Punctual, Batch, RunBatch, RecycleAll, BatchReady, RecycleReady;
    var b := StartOf(s);
    var r := RunBatch(b, Batch(s), script);
    RunBatchFreed(b, Batch(s), script, q);
    RecycleAllStaysFreed(CallsDone(r, Batch(s)), Batch(s), q);
  }

  // After handleRead the kernel timer is set anew for the earliest expiration.
  lemma HandledReadRearms(s: Queue, script: seq<seq<Call>>)
    requires Valid(s) && !s.handling
    ensures var t := HandledRead(s, script);
      t.timers != [] && t.timers[0].when > 0 ==>
        t.timerfd == Armed(Larger(t.timers[0].when, t.clock + CLAMP), t.clock)
  {
    hide Core, Punctual, Batch, RunBatch, RecycleAll, BatchReady, RecycleReady;
  }

  // With no timer in the queue it stays as it was, unless it had gone off.
  lemma IdleReadKeepsTimerfd(s: Queue, script: seq<seq<Call>>)
    requires Valid(s) && !s.handling && s.timers == []
    ensures HandledRead(s, script).timerfd == if s.timerfd.Readable(s.clock) then Disarmed else s.timerfd
  {
    var b := StartOf(s);
    assert Batch(s) == [] && b.timerfd == ReadTimerfd(s.timerfd, s.clock) && b.timers == [];
    assert RunBatch(b, [], script) == b;
    hide Core, Punctual, Batch, BatchReady, RecycleReady, Begun, RunBatch;
    var c := CallsDone(b, []);
    assert RecycleAll(c, []) == c;
  }

  // A timer that nobody cancels is held by its functor until that runs, is in the
  // queue until a handleRead finds it expired, and then one interval later in the
  // queue again if it repeats, and over if not.
  datatype Fate = Held(when: int) | Queued(when: int) | Over

  predicate Due(when: int, addr: nat, clock: int) {
    when < clock || (when == clock && addr < SENTRY)
  }

  // `timer` is the timer as it was made; `clock` is the time of the event.
  function FateAfter(f: Fate, addr: nat, timer: Timer, event: Event, clock: int): Fate {
    match f
    case Held(when) => if event == RunAdd(addr) then Queued(when) else f
    case Queued(when) =>
      if !event.Read? || !Due(when, addr, clock) then f
      else if timer.repeat then Queued(clock + timer.delta) else Over
    case Over => Over
  }

  ghost predicate Meets(s: Queue, addr: nat, timer: Timer, f: Fate) {
    match f
    case Held(when) => addr in s.pending && addr in s.heap && s.heap[addr] == timer.(expiration := when)
    case Queued(when) =>
      addr !in s.pending && addr in s.heap && s.heap[addr] == timer.(expiration := when) && Entry(when, addr) in s.timers
    case Over => timer.sequence in s.freedAt
  }

  predicate Cancels(event: Event, id: TimerId) {
    match event
    case Outside(call) => call == Cancel(id)
    case RunAdd(_) => false
    case Read(script) => exists i :: 0 <= i < |script| && Cancel(id) in script[i]
  }

  lemma {:induction false} NotCancelled(script: seq<seq<Call>>, n: nat, id: TimerId)
    requires forall i :: 0 <= i < |script| ==> Cancel(id) !in script[i]
    ensures !CancelledBy(script, n, id)
    decreases n
  {
    if n > 0 {
      assert Cancel(id) !in Body(script);
      NotCancelled(Later(script), n - 1, id);
    }
  }

  lemma HeldOrQueued(s: Queue, addr: nat)
    requires Valid(s) && !s.handling && addr in s.heap
    ensures addr !in s.pending ==> KeyOf(s, addr) in s.timers
    ensures Sorted(s.timers)
    ensures addr in Addresses(Batch(s)) <==> addr !in s.pending && KeyOf(s, addr) in Batch(s)
  {
    hide Sequenced, Past, Final, AllResting, Ahead, Doomed, CancelLog, Punctual;
    SplitSorted(s.timers, ExpiredCount(s));
    forall e | e in Batch(s) && e.addr == addr
      ensures e == KeyOf(s, addr) && addr !in s.pending
    {
      assert e in s.timers;
    }
  }

  lemma CallFate(s: Queue, addr: nat, timer: Timer, f: Fate, call: Call)
    requires Valid(s) && !s.handling && Meets(s, addr, timer, f) && call != Cancel(TimerId(addr, timer.sequence))
    ensures Meets(Called(s, call), addr, timer, f)
  {
    var t := Called(s, call);
    hide Core, Punctual, Do;
    if f.Over? {
      DoFreed(s, call, timer.sequence);
    } else {
      DoLeaves(s, call, addr);
      HeldOrQueued(t, addr);
    }
  }

  lemma RunAddFate(s: Queue, addr: nat, timer: Timer, f: Fate, a: nat)
    requires Valid(s) && !s.handling && Meets(s, addr, timer, f)
    ensures Meets(RanAdd(s, a), addr, timer, FateAfter(f, addr, timer, RunAdd(a), s.clock))
  {
    var t := RanAdd(s, a);
    hide Core, Punctual, AddedInLoop;
    if a in s.pending {
      var u := AddQueued(s, a);
      if f.Over? {
        AddedFrame(s, a);
      } else {
        AddTakesHold(s, a);
        HeldOrQueued(t, addr);
        hide Addresses, Batch, Insertable;
      }
    }
  }

  lemma DueReadFate(s: Queue, addr: nat, timer: Timer, when: int, script: seq<seq<Call>>)
    requires Valid(s) && !s.handling && Meets(s, addr, timer, Queued(when)) && Sorted(s.timers)
    requires Entry(when, addr) in Batch(s) && !CancelledBy(script, |Batch(s)|, TimerId(addr, timer.sequence))
    ensures Meets(HandledRead(s, script), addr, timer, if timer.repeat then Queued(s.clock + timer.delta) else Over)
  {
    hide Core, Punctual, HandledRead, Batch, CancelledBy;
    HandledReadOutcome(s, script, KeyOf(s, addr));
    if timer.repeat {
      InTimersIsQueued(HandledRead(s, script), addr);
    }
  }

  lemma QuietReadFate(s: Queue, addr: nat, timer: Timer, f: Fate, script: seq<seq<Call>>)
    requires Valid(s) && !s.handling && !f.Over? && Meets(s, addr, timer, f) && Sorted(s.timers)
    requires addr !in Addresses(Batch(s)) && !CancelledBy(script, |Batch(s)|, TimerId(addr, timer.sequence))
    ensures Meets(HandledRead(s, script), addr, timer, f)
  {
    hide Core, Punctual, HandledRead, Batch, CancelledBy;
    HandledReadLeaves(s, script, addr);
    HeldOrQueued(HandledRead(s, script), addr);
  }

  lemma ReadFate(s: Queue, addr: nat, timer: Timer, f: Fate, script: seq<seq<Call>>)
    requires Valid(s) && !s.handling && Meets(s, addr, timer, f) && !Cancels(Read(script), TimerId(addr, timer.sequence))
    ensures Meets(HandledRead(s, script), addr, timer, FateAfter(f, addr, timer, Read(script), s.clock))
  {
    hide Core, Punctual, HandledRead, Batch;
    if f.Over? {
      HandledReadFreed(s, script, timer.sequence);
    } else {
      HeldOrQueued(s, addr);
      NotCancelled(script, |Batch(s)|, TimerId(addr, timer.sequence));
      if f.Queued? {
        DueTimersRun(s, KeyOf(s, addr));
      }
      var due := f.Queued? && Due(f.when, addr, s.clock);
      hide Valid, Addresses, CancelledBy, Cancels;
      if due {
        DueReadFate(s, addr, timer, f.when, script);
      } else {
        QuietReadFate(s, addr, timer, f, script);
      }
    }
  }

  lemma InTimersIsQueued(s: Queue, addr: nat)
    requires Valid(s) && addr in s.heap && KeyOf(s, addr) in s.timers
    ensures addr !in s.pending
  {
    hide Sequenced, Past, Final, AllResting, Ahead, Doomed, CancelLog, Punctual;
  }

  lemma NextFate(s: Queue, addr: nat, timer: Timer, f: Fate, event: Event)
    requires Valid(s) && !s.handling && Meets(s, addr, timer, f) && !Cancels(event, TimerId(addr, timer.sequence))
    ensures Meets(Next(s, event), addr, timer, FateAfter(f, addr, timer, event, s.clock))
  {
    hide Core, Punctual, Meets, Called, RanAdd, HandledRead;
    match event
    case Outside(call) => CallFate(s, addr, timer, f, call);
    case RunAdd(a) => RunAddFate(s, addr, timer, f, a);
    case Read(script) => ReadFate(s, addr, timer, f, script);
  }

  // The events that come after a state, and a timer's fate over them.
  ghost function After(s: Queue, events: seq<Event>): (t: Queue)
    requires Valid(s) && !s.handling
    ensures Valid(t) && !t.handling
    decreases |events|
  {
    if events == [] then s else After(Next(s, events[0]), events[1..])
  }

  ghost function FateOver(s: Queue, f: Fate, addr: nat, timer: Timer, events: seq<Event>): Fate
    requires Valid(s) && !s.handling
    decreases |events|
  {
    if events == [] then f
    else FateOver(Next(s, events[0]), FateAfter(f, addr, timer, events[0], s.clock), addr, timer, events[1..])
  }

  lemma {:induction false} RunGoesOn(now: int, before: seq<Event>, events: seq<Event>)
    requires now > 0
    ensures Run(now, before + events) == After(Run(now, before), events)
    decreases |events|
  {
    if events == [] {
      assert before + events == before;
    } else {
      var longer := before + [events[0]];
      assert before + events == longer + events[1..];
      assert longer[..|longer| - 1] == before;
      RunGoesOn(now, longer, events[1..]);
    }
  }

  lemma {:induction false} AfterFate(s: Queue, addr: nat, timer: Timer, f: Fate, events: seq<Event>)
    requires Valid(s) && !s.handling && Meets(s, addr, timer, f)
    requires forall i :: 0 <= i < |events| ==> !Cancels(events[i], TimerId(addr, timer.sequence))
    ensures Meets(After(s, events), addr, timer, FateOver(s, f, addr, timer, events))
    decreases |events|
  {
    if events != [] {
      hide Valid, Meets, Next, FateAfter, Cancels;
      assert !Cancels(events[0], TimerId(addr, timer.sequence));
      NextFate(s, addr, timer, f, events[0]);
      assert forall i :: 0 <= i < |events| - 1 ==> events[1..][i] == events[i + 1];
      AfterFate(Next(s, events[0]), addr, timer, FateAfter(f, addr, timer, events[0], s.clock), events[1..]);
    }
  }

  // A timer that addTimer makes in any run and nobody cancels keeps its values
  // and goes through exactly that fate: from its functor into the queue, out of
  // it by the first handleRead that finds it due and, if it repeats, back for
  // one interval from the time of each.
  lemma AddedTimerFate(now: int, before: seq<Event>, call: Call, events: seq<Event>)
    requires now > 0 && (call.Add? || call.AddElsewhere?) && call.addr !in Run(now, before).heap
    requires var id := TimerId(call.addr, Run(now, before + [Outside(call)]).numCreated);
      forall i :: 0 <= i < |events| ==> !Cancels(events[i], id)
    ensures var s := Run(now, before + [Outside(call)]);
      var timer := Timer(call.when, call.delta, call.repeat, s.numCreated);
      var first := if call.Add? then Queued(call.when) else Held(call.when);
      && timer.sequence !in Run(now, before).born
      && Meets(Run(now, before + [Outside(call)] + events), call.addr, timer,
               FateOver(s, first, call.addr, timer, events))
  {
    var r, s := Run(now, before), Run(now, before + [Outside(call)]);
    assert (before + [Outside(call)])[..|before|] == before;
    assert s == Do(r, call);
    var timer := Timer(call.when, call.delta, call.repeat, s.numCreated);
    hide Core, Punctual, Run, Do, After, FateOver;
    AddMakes(r, call);
    NotYetHeld(r, call.addr);
    HeldOrQueued(s, call.addr);
    AfterFate(s, call.addr, timer, if call.Add? then Queued(call.when) else Held(call.when), events);
    RunGoesOn(now, before + [Outside(call)], events);
  }

  lemma NotYetHeld(s: Queue, addr: nat)
    requires Valid(s) && addr !in s.heap
    ensures addr !in s.pending
  {
    NewSequence(s);
    hide Core, Punctual;
  }

  // ------------------------------------------------------------- the class

  class TimerQueue {
    var heap: map<nat, Timer>
    var numCreated: nat
    var timers: seq<Entry>
    var active: set<TimerId>
    var calling: bool
    var canceling: set<TimerId>
    var pending: set<nat>
    var clock: int
    var timerfd: TimerFd

    ghost var queued: set<nat>
    ghost var running: set<nat>
    ghost var done: set<nat>
    ghost var handling: bool
    ghost var batches: nat
    ghost var lastNow: int
    ghost var born: map<nat, Birth>
    ghost var freedAt: map<nat, nat>
    ghost var cancelled: map<nat, nat>
    ghost var log: seq<Firing>

    ghost function State(): Queue
      reads this
    {
      Queue(heap, numCreated, timers, active, calling, canceling, pending, clock, timerfd,
            queued, running, done, handling, batches, lastNow, born, freedAt, cancelled, log)
    }

    constructor (now: int)
      requires now > 0
      ensures State() == Initial(now) && Valid(State())
    {
      heap, numCreated, timers, active := map[], 0, [], {};
      calling, canceling, pending := false, {}, {};
      clock, timerfd := now, Disarmed;
      queued, running, done, handling, batches, lastNow := {}, {}, {}, false, 0, 0;
      born, freedAt, cancelled, log := map[], map[], map[], [];
    }

    method ResetTimerfd(expiration: int)
      modifies this`timerfd
      ensures timerfd == Armed(Larger(expiration, clock + CLAMP), clock)
    {
      timerfd := SetTime(clock, HowMuchTimeFromNow(expiration, clock));
      SetTimeArms(expiration, clock);
    }

    // new Timer in addTimer.
    method NewTimer(addr: nat, when: int, repeat: bool, delta: nat, others: nat) returns (id: TimerId)
      requires Valid(State()) && addr !in heap
      modifies this
      ensures State() == Make(old(State()), addr, when, repeat, delta, others)
      ensures id == TimerId(addr, numCreated) && old(numCreated) + others < numCreated
      ensures heap == old(heap)[addr := Timer(when, delta, repeat, id.sequence)] && pending == old(pending) + {addr}
    {
      hide Core, Punctual;
      numCreated := numCreated + others + 1;
      heap := heap[addr := Timer(when, delta, repeat, numCreated)];
      pending := pending + {addr};
      born := born[numCreated := Birth(addr, delta, repeat)];
      id := TimerId(addr, numCreated);
    }

    // The owner of a timer changes.
    ghost method Enter(addr: nat)
      modifies this`queued, this`running, this`done
      ensures State() == old(State()).(queued := old(queued) + {addr}, running := old(running) - {addr}, done := old(done) - {addr})
    {
      queued, running, done := queued + {addr}, running - {addr}, done - {addr};
    }

    ghost method Mark(q: nat)
      modifies this`cancelled
      ensures State() == old(State()).(cancelled := old(cancelled)[q := batches])
    {
      cancelled := cancelled[q := batches];
    }

    ghost method Leave(addr: nat)
      modifies this`queued, this`running, this`done
      ensures State() == old(State()).(queued := old(queued) - {addr}, running := old(running) - {addr}, done := old(done) - {addr})
    {
      queued, running, done := queued - {addr}, running - {addr}, done - {addr};
    }

    method Insert(addr: nat) returns (earliestChanged: bool)
      requires Core(State()) && Insertable(State(), addr)
      modifies this
      ensures State() == TakeOver(old(State()), addr)
      ensures earliestChanged == EarliestChanged(old(State()), addr)
      ensures |old(timers)| == |old(active)| && |timers| == |active|
    {
      hide Core, Punctual, Sorted, OrderedEntries.Insert;
      CoreSizes(State());
      ghost var t := TakeOver(State(), addr);
      CoreSizes(t);
      var when := heap[addr].expiration;
      earliestChanged := timers == [] || when < timers[0].when;
      Index(addr);
      pending := pending - {addr};
      Enter(addr);
    }

    method Index(addr: nat)
      requires Sorted(timers) && addr in heap && Absent(State(), addr)
      modifies this`timers, this`active
      ensures State() == old(State()).(timers := OrderedEntries.Insert(old(timers), KeyOf(old(State()), addr)),
                                       active := old(active) + {TimerId(addr, old(heap)[addr].sequence)})
    {
      hide Sorted, OrderedEntries.Insert;
      timers := OrderedEntries.Insert(timers, Entry(heap[addr].expiration, addr));
      active := active + {TimerId(addr, heap[addr].sequence)};
    }

    // delete of a live timer.
    method Delete(addr: nat)
      requires addr in heap
      modifies this`heap, this`freedAt, this`queued, this`running, this`done
      ensures State() == Deleted(old(State()), addr)
    {
      freedAt := freedAt[heap[addr].sequence := |log|];
      heap := heap - {addr};
      Leave(addr);
    }

    method AddTimerInLoop(addr: nat)
      requires Valid(State()) && addr in pending
      modifies this
      ensures State() == AddQueued(old(State()), addr)
    {
      hide Core, Punctual, Sorted, OrderedEntries.Insert;
      ghost var t := AddQueued(State(), addr);
      assert Core(State());
      var earliestChanged := Insert(addr);
      if earliestChanged {
        ResetTimerfd(heap[addr].expiration);
      }
    }

    method CancelInLoop(id: TimerId)
      requires Open(State())
      modifies this
      ensures State() == CancelTimer(old(State()), id)
      ensures |old(timers)| == |old(active)| && |timers| == |active|
    {
      hide Core, Punctual, Sorted, Erase;
      CancelSizes(State(), id);
      ghost var t := CancelTimer(State(), id);
      if Finds(State(), id) {
        Mark(id.sequence);
      }
      if id in active {
        timers := Erase(timers, Entry(heap[id.addr].expiration, id.addr));
        Delete(id.addr);
        active := active - {id};
      } else if calling {
        canceling := canceling + {id};
      }
    }

    // One API call, made by a callback or by another thread.
    method Perform(call: Call)
      requires Open(State())
      modifies this
      ensures State() == Do(old(State()), call)
    {
      hide Core, Punctual;
      match call
      case Add(addr, when, repeat, delta) =>
        if addr !in heap {
          var id := NewTimer(addr, when, repeat, delta, 0);
          AddTimerInLoop(addr);
        }
      case AddElsewhere(addr, when, repeat, delta, others) =>
        if addr !in heap {
          var id := NewTimer(addr, when, repeat, delta, others);
        }
      case Cancel(id) =>
        CancelInLoop(id);
      case Elapse(micros) =>
        clock := clock + micros;
    }

    // A callback body.
    method RunCallback(calls: seq<Call>)
      requires Open(State())
      modifies this
      ensures State() == DoAll(old(State()), calls)
    {
      hide Core, Punctual, Do;
      var i := 0;
      while i < |calls|
        invariant 0 <= i <= |calls|
        invariant Open(State())
        invariant DoAll(State(), calls[i..]) == DoAll(old(State()), calls)
      {
        assert calls[i..][0] == calls[i] && calls[i..][1..] == calls[i + 1..];
        Perform(calls[i]);
        i := i + 1;
      }
    }

    // The loop of getExpired: each erase finds its entry.
    method EraseActive(expired: seq<Entry>)
      requires DistinctAddresses(expired)
      requires forall e :: e in expired ==> e.addr in heap && TimerId(e.addr, heap[e.addr].sequence) in active
      requires forall id :: id in active ==> id.addr in heap && id.sequence == heap[id.addr].sequence
      modifies this`active
      ensures active == set id | id in old(active) && id.addr !in Addresses(expired) :: id
    {
      var i := 0;
      while i < |expired|
        invariant 0 <= i <= |expired|
        invariant active == set id | id in old(active) && id.addr !in Addresses(expired[..i]) :: id
      {
        var timer := TimerId(expired[i].addr, heap[expired[i].addr].sequence);
        assert expired[i] in expired;
        assert timer in active;
        active := active - {timer};
        i := i + 1;
      }
      assert expired[..i] == expired;
    }

    method GetExpired() returns (expired: seq<Entry>)
      requires Valid(State()) && !handling
      modifies this`timers, this`active
      ensures Sorted(old(timers)) && expired == Batch(old(State()))
      ensures State() == old(State()).(timers := old(timers)[|expired|..],
                                       active := set id | id in old(active) && id.addr !in Addresses(expired) :: id)
      ensures |old(timers)| == |old(active)| && |timers| == |active|
    {
      hide Core, Punctual, Sorted, LowerBound;
      StartSizes(State());
      ghost var t := StartOf(State());
      BatchActive(State());
      var end := LowerBound(timers, Entry(clock, SENTRY));
      expired := timers[..end];
      EraseActive(expired);
      timers := timers[end..];
    }

    // One round of the loop in reset.
    method Recycle(addr: nat, now: int)
      requires Valid(State()) && handling && addr in done && now == lastNow
      modifies this
      ensures State() == RecycleOne(old(State()), addr)
    {
      hide Core, Punctual, Sorted, OrderedEntries.Insert;
      ghost var t := RecycleOne(State(), addr);
      var timer := heap[addr];
      if timer.repeat && TimerId(addr, timer.sequence) !in canceling {
        heap := heap[addr := timer.(expiration := now + timer.delta)];
        var earliestChanged := Insert(addr);
      } else {
        Delete(addr);
      }
    }

    method Reset(expired: seq<Entry>, now: int)
      requires RecycleReady(State(), expired) && now == lastNow
      modifies this
      ensures State() == Finished(RecycleAll(old(State()), expired))
    {
      hide Core, Punctual, Sorted, Recycled, Restarted, Survives;
      var i := 0;
      while i < |expired|
        invariant 0 <= i <= |expired| && now == lastNow
        invariant RecycleReady(State(), expired[i..])
        invariant RecycleAll(State(), expired[i..]) == RecycleAll(old(State()), expired)
      {
        assert expired[i..][0] == expired[i] && expired[i..][1..] == expired[i + 1..];
        ghost var t := RecycleFirst(State(), expired[i..]);
        assert expired[i].addr in Addresses(expired[i..]);
        Recycle(expired[i].addr, now);
        i := i + 1;
      }
      assert expired[i..] == [];
      handling := false;
      if timers != [] && timers[0].when > 0 {
        ResetTimerfd(timers[0].when);
      }
    }

    ghost method StartBatch()
      modifies this`handling, this`batches, this`lastNow
      ensures State() == old(State()).(handling := true, batches := old(batches) + 1, lastNow := clock)
    {
      handling, batches, lastNow := true, batches + 1, clock;
    }

    ghost method Detach(batch: set<nat>)
      modifies this`queued, this`running, this`done
      ensures State() == old(State()).(queued := old(queued) - batch, running := batch, done := {})
    {
      queued, running, done := queued - batch, batch, {};
    }

    // handleRead up to the first callback.
    method Begin() returns (expired: seq<Entry>)
      requires Valid(State()) && !handling
      modifies this
      ensures Sorted(old(timers)) && expired == Batch(old(State())) && State() == StartOf(old(State()))
    {
      hide Core, Punctual, Sorted, LowerBound;
      expired := GetExpired();
      Detach(Addresses(expired));
      timerfd := ReadTimerfd(timerfd, clock);
      calling := true;
      canceling := {};
      StartBatch();
    }

    ghost method Record(e: Entry)
      requires e.addr in heap
      modifies this`log, this`done
      ensures State() == Fired(old(State()), e)
    {
      log := log + [Firing(heap[e.addr].sequence, e.addr, batches, lastNow, e.when)];
      done := done + {e.addr};
    }

    // handleRead.
    method HandleRead(script: seq<seq<Call>>)
      requires Valid(State()) && !handling
      modifies this
      ensures State() == HandledRead(old(State()), script)
    {
      hide Core, Punctual, Sorted, Batch, NextToFire, Do, Fired, RunFirst, BatchReady, RecycleReady;
      ghost var s := State();
      ghost var t := HandledRead(s, script);
      var now := clock;
      var expired := Begin();
      var i := 0;
      var todo := script;
      while i < |expired|
        invariant 0 <= i <= |expired| && now == lastNow
        invariant BatchReady(State(), expired[i..])
        invariant RunBatch(State(), expired[i..], todo) == RunBatch(StartOf(s), expired, script)
      {
        assert expired[i..][0] == expired[i] && expired[i..][1..] == expired[i + 1..];
        ghost var u := RunFirst(State(), expired[i..], todo);
        Record(expired[i]);
        RunCallback(Body(todo));
        i, todo := i + 1, Later(todo);
      }
      assert expired[i..] == [];
      ghost var c := CallsDone(State(), expired);
      calling := false;
      Reset(expired, now);
    }
  }

  // In the indexes, an expired timer has exactly one active entry.
  lemma BatchActive(s: Queue)
    requires Valid(s) && !s.handling
    ensures Sorted(s.timers) && DistinctAddresses(Batch(s))
    ensures forall e :: e in Batch(s) ==> e.addr in s.heap && TimerId(e.addr, s.heap[e.addr].sequence) in s.active
    ensures forall id :: id in s.active ==> id.addr in s.heap && id.sequence == s.heap[id.addr].sequence
  {
    BegunReady(s);
    SplitSorted(s.timers, ExpiredCount(s));
    forall e | e in Batch(s)
      ensures e.addr in s.heap && TimerId(e.addr, s.heap[e.addr].sequence) in s.active
    {
      assert e in s.timers;
    }
  }
}
