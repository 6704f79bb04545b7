// The growable byte buffer of net/buffer.h and the scatter read of
// net/buffer.cpp. The class works in place on an array; Image is the value it
// stands for, Apply the effect of one call on that value.
module Buffers {
  import opened Endian
  import Sequences

  const CHEAP_PREPEND: nat := 8
  const INITIAL_SIZE: nat := 1024
  const EXTRA_BUFFER: nat := 65536

  // ------------------------------------------------------- abstract value

  datatype Shape = Shape(size: nat, reader: nat, writer: nat) {
    predicate Ordered() { CHEAP_PREPEND <= size && reader <= writer <= size }

    function Readable(): nat
      requires Ordered()
    {
      writer - reader
    }

    function Writable(): nat
      requires Ordered()
    {
      size - writer
    }

    // makeSpace grows the vector, or slides the readable bytes to the front.
    predicate Grows(len: nat)
      requires Ordered()
    {
      Writable() + reader < len + CHEAP_PREPEND
    }

    function MakeSpace(len: nat): (s: Shape)
      requires Ordered() && Writable() < len
      ensures s.Ordered() && s.Readable() == Readable() && s.Writable() >= len
    {
      if Grows(len) then Shape(writer + len, reader, writer)
      else Shape(size, CHEAP_PREPEND, CHEAP_PREPEND + Readable())
    }

    function EnsureWritable(len: nat): (s: Shape)
      requires Ordered()
      ensures s.Ordered() && s.Readable() == Readable() && s.Writable() >= len
    {
      if Writable() < len then MakeSpace(len) else this
    }

    function Append(len: nat): (s: Shape)
      requires Ordered()
      ensures s.Ordered() && s.Readable() == Readable() + len
    {
      var t := EnsureWritable(len);
      t.(writer := t.writer + len)
    }

    function Retrieve(len: nat): (s: Shape)
      requires Ordered() && len <= Readable()
      ensures s.Ordered() && s.Readable() == Readable() - len
    {
      if len < Readable() then this.(reader := reader + len)
      else this.(reader := CHEAP_PREPEND, writer := CHEAP_PREPEND)
    }

    function ReadFd(len: nat): (s: Shape)
      requires Ordered()
      ensures s.Ordered() && s.Readable() == Readable() + len
    {
      if len <= Writable() then this.(writer := writer + len)
      else this.(writer := size).Append(len - Writable())
    }
  }

  function Fresh(initialSize: nat): (s: Shape)
    ensures s.Ordered() && s.Readable() == 0
  {
    Shape(CHEAP_PREPEND + initialSize, CHEAP_PREPEND, CHEAP_PREPEND)
  }

  // shrink copies into a new default buffer that first made room for the
  // readable bytes and the reserve together.
  function Shrunk(readable: nat, reserve: nat): (s: Shape)
    ensures s.Ordered() && s.Readable() == readable
  {
    Fresh(INITIAL_SIZE).EnsureWritable(readable + reserve).Append(readable)
  }

  datatype Image = Image(contents: seq<Byte>, shape: Shape) {
    predicate Ok() {
      shape.Ordered() && shape.Readable() == |contents|
    }
  }

  datatype Op =
    | Append(bytes: seq<Byte>)
    | Prepend(bytes: seq<Byte>)
    | Retrieve(len: nat)
    | Unwrite(len: nat)
    | Shrink(reserve: nat)
    | ReadFd(bytes: seq<Byte>)

  // What the asserts of buffer.h and the size of the scatter vector demand.
  predicate Applicable(m: Image, op: Op)
    requires m.Ok()
  {
    match op
    case Append(_) => true
    case Prepend(bytes) => |bytes| <= m.shape.reader
    case Retrieve(len) => len <= |m.contents|
    case Unwrite(len) => len <= |m.contents|
    case Shrink(_) => true
    case ReadFd(bytes) => |bytes| <= ScatterCapacity(m.shape.Writable())
  }

  function ScatterCapacity(writable: nat): nat {
    if writable < EXTRA_BUFFER then writable + EXTRA_BUFFER else writable
  }

  function Apply(m: Image, op: Op): (r: Image)
    requires m.Ok() && Applicable(m, op)
    ensures r.Ok()
  {
    match op
    case Append(bytes) => Image(m.contents + bytes, m.shape.Append(|bytes|))
    case Prepend(bytes) => Image(bytes + m.contents, m.shape.(reader := m.shape.reader - |bytes|))
    case Retrieve(len) => Image(m.contents[len..], m.shape.Retrieve(len))
    case Unwrite(len) => Image(m.contents[..|m.contents| - len], m.shape.(writer := m.shape.writer - len))
    case Shrink(reserve) => Image(m.contents, Shrunk(|m.contents|, reserve))
    case ReadFd(bytes) => Image(m.contents + bytes, m.shape.ReadFd(|bytes|))
  }

  predicate Runs(m: Image, ops: seq<Op>)
    requires m.Ok()
    decreases ops
  {
    ops == [] || (Applicable(m, ops[0]) && Runs(Apply(m, ops[0]), ops[1..]))
  }

  function Run(m: Image, ops: seq<Op>): (r: Image)
    requires m.Ok() && Runs(m, ops)
    ensures r.Ok()
    decreases ops
  {
    if ops == [] then m else Run(Apply(m, ops[0]), ops[1..])
  }

  // --------------------------------------------------------- properties

  // The assert of makeSpace before it slides: space short at the back and
  // enough in total means the readable bytes are not already at the front.
  lemma SlideMovesForward(s: Shape, len: nat)
    requires s.Ordered() && s.Writable() < len && !s.Grows(len)
    ensures CHEAP_PREPEND < s.reader
  {
    assert s.Writable() + s.reader >= len + CHEAP_PREPEND;
  }

  // One growth stays within the readable bytes plus twice the request.
  lemma GrowthBound(s: Shape, len: nat)
    requires s.Ordered()
    ensures s.size <= s.Append(len).size
    ensures s.Append(len).size <= Max(s.size, s.Readable() + 2 * len + 7)
    ensures s.ReadFd(len).size <= Max(s.size, s.Readable() + 2 * len + 7)
  {
  }

  function Max(a: nat, b: nat): (m: nat)
    ensures m >= a && m >= b && (m == a || m == b)
  {
    if a < b then b else a
  }

  function Length(op: Op): nat {
    match op
    case Append(bytes) => |bytes|
    case Prepend(bytes) => |bytes|
    case Retrieve(len) => len
    case Unwrite(len) => len
    case Shrink(reserve) => reserve
    case ReadFd(bytes) => |bytes|
  }

  // Every state of the run has at most `backlog` readable bytes and every call
  // moves or reserves at most `chunk`.
  predicate Modest(m: Image, ops: seq<Op>, backlog: nat, chunk: nat)
    requires m.Ok() && Runs(m, ops)
    decreases ops
  {
    |m.contents| <= backlog &&
    (ops == [] || (Length(ops[0]) <= chunk && Modest(Apply(m, ops[0]), ops[1..], backlog, chunk)))
  }

  // Memory over a whole run is bounded by the largest backlog and the largest
  // request, however many calls are made.
  lemma {:induction false} RunSpaceBound(m: Image, ops: seq<Op>, backlog: nat, chunk: nat)
    requires m.Ok() && Runs(m, ops) && Modest(m, ops, backlog, chunk)
    ensures Run(m, ops).shape.size <= Max(m.shape.size, Max(CHEAP_PREPEND + INITIAL_SIZE, backlog + 2 * chunk + 8))
    decreases ops
  {
    if ops != [] {
      var next := Apply(m, ops[0]);
      match ops[0] {
        case Append(bytes) => GrowthBound(m.shape, |bytes|);
        case ReadFd(bytes) => GrowthBound(m.shape, |bytes|);
        case Shrink(reserve) => ShrunkShape(|m.contents|, reserve);
        case _ =>
      }
      RunSpaceBound(next, ops[1..], backlog, chunk);
    }
  }

  // shrink's comment promises a writable space of exactly `reserve`. It holds
  // exactly when contents and reserve fill a default buffer.
  lemma ShrunkShape(readable: nat, reserve: nat)
    ensures Shrunk(readable, reserve).size == CHEAP_PREPEND + Max(INITIAL_SIZE, readable + reserve)
    ensures Shrunk(readable, reserve).reader == CHEAP_PREPEND
    ensures Shrunk(readable, reserve).Writable() == reserve <==> readable + reserve >= INITIAL_SIZE
  {
  }

  // buffer.h:61 asserts the writable space of a new buffer against the default
  // size whatever size was asked for.
  lemma ConstructorAssert(initialSize: nat)
    ensures Fresh(initialSize).Writable() == initialSize
    ensures Fresh(initialSize).Writable() == INITIAL_SIZE <==> initialSize == INITIAL_SIZE
  {
  }

  // What a run wrote at the back and has not taken from the front again is
  // still there in order: the byte-queue law for runs without prepend or
  // unwrite.
  function Wrote(op: Op): seq<Byte> {
    match op
    case Append(bytes) => bytes
    case ReadFd(bytes) => bytes
    case _ => []
  }

  function Took(op: Op): nat {
    if op.Retrieve? then op.len else 0
  }

  function Written(ops: seq<Op>): seq<Byte> {
    if ops == [] then [] else Wrote(ops[0]) + Written(ops[1..])
  }

  function Taken(ops: seq<Op>): nat {
    if ops == [] then 0 else Took(ops[0]) + Taken(ops[1..])
  }

  predicate QueueOnly(ops: seq<Op>) {
    forall i :: 0 <= i < |ops| ==> !ops[i].Prepend? && !ops[i].Unwrite?
  }

  lemma StepIsQueue(m: Image, op: Op)
    requires m.Ok() && Applicable(m, op) && !op.Prepend? && !op.Unwrite?
    ensures Took(op) <= |m.contents|
    ensures Apply(m, op).contents == (m.contents + Wrote(op))[Took(op)..]
  {
  }

  lemma DropThenAppend(a: seq<Byte>, b: seq<Byte>, c: seq<Byte>, j: nat, k: nat)
    requires j <= |a| && k <= |(a + b)[j..] + c|
    ensures ((a + b)[j..] + c)[k..] == (a + (b + c))[j + k..]
  {
    assert (a + b)[j..] + c == (a + (b + c))[j..];
  }

  lemma {:induction false} RunIsQueue(m: Image, ops: seq<Op>)
    requires m.Ok() && Runs(m, ops) && QueueOnly(ops)
    ensures Taken(ops) <= |m.contents + Written(ops)|
    ensures Run(m, ops).contents == (m.contents + Written(ops))[Taken(ops)..]
    decreases ops
  {
    if ops == [] {
      assert m.contents + [] == m.contents;
    } else {
      var op, rest := ops[0], ops[1..];
      StepIsQueue(m, op);
      assert QueueOnly(rest) by {
        assert forall i :: 0 <= i < |rest| ==> rest[i] == ops[i + 1];
      }
      RunIsQueue(Apply(m, op), rest);
      DropThenAppend(m.contents, Wrote(op), Written(rest), Took(op), Taken(rest));
    }
  }

  // All six calls, read as edits of a tape: a retrieve moves the front of the
  // contents forward and a prepend back; an append or readFd moves their end on
  // and an unwrite back.
  function Front(ops: seq<Op>): int {
    if ops == [] then 0
    else
      var front := Front(ops[..|ops| - 1]);
      match ops[|ops| - 1]
      case Retrieve(len) => front + len
      case Prepend(bytes) => front - |bytes|
      case _ => front
  }

  function Back(initial: nat, ops: seq<Op>): int {
    if ops == [] then initial
    else
      var back := Back(initial, ops[..|ops| - 1]);
      match ops[|ops| - 1]
      case Append(bytes) => back + |bytes|
      case ReadFd(bytes) => back + |bytes|
      case Unwrite(len) => back - len
      case _ => back
  }

  // The byte that was last written at position p; position 0 is where the
  // contents began.
  function Cell(initial: seq<Byte>, ops: seq<Op>, p: int): Byte {
    if ops == [] then (if 0 <= p < |initial| then initial[p] else 0)
    else
      var before, op := ops[..|ops| - 1], ops[|ops| - 1];
      var bytes := if op.Append? || op.ReadFd? || op.Prepend? then op.bytes else [];
      var at := if op.Prepend? then Front(before) - |bytes| else Back(|initial|, before);
      if at <= p < at + |bytes| then bytes[p - at] else Cell(initial, before, p)
  }

  lemma {:induction false} RunLast(m: Image, ops: seq<Op>)
    requires m.Ok() && Runs(m, ops) && ops != []
    ensures var before, op := ops[..|ops| - 1], ops[|ops| - 1];
      Runs(m, before) && Applicable(Run(m, before), op) && Run(m, ops) == Apply(Run(m, before), op)
    decreases ops
  {
    if |ops| > 1 {
      hide Apply, Applicable;
      assert ops[1..][..|ops| - 2] == ops[..|ops| - 1][1..];
      RunLast(Apply(m, ops[0]), ops[1..]);
    } else {
      assert ops[1..] == [] && ops[..0] == [];
    }
  }

  // The contents are what the tape holds from front to back.
  ghost predicate OnTape(m: Image, initial: seq<Byte>, ops: seq<Op>) {
    && |m.contents| == Back(|initial|, ops) - Front(ops)
    && forall k :: 0 <= k < |m.contents| ==> m.contents[k] == Cell(initial, ops, Front(ops) + k)
  }

  lemma StepIsTape(m: Image, initial: seq<Byte>, ops: seq<Op>)
    requires ops != [] && m.Ok() && OnTape(m, initial, ops[..|ops| - 1]) && Applicable(m, ops[|ops| - 1])
    ensures OnTape(Apply(m, ops[|ops| - 1]), initial, ops)
  {
    var before, op := ops[..|ops| - 1], ops[|ops| - 1];
    var t := Apply(m, op).contents;
    var shift := Front(ops) - Front(before);
    forall k | 0 <= k < |t|
      ensures t[k] == Cell(initial, ops, Front(ops) + k)
    {
      assert 0 <= k + shift < |m.contents| ==> m.contents[k + shift] == Cell(initial, before, Front(before) + (k + shift));
    }
  }

  // Over any run the contents are the stretch of the tape between front and
  // back, each position holding what was last written there.
  lemma {:induction false} RunIsTape(m: Image, ops: seq<Op>)
    requires m.Ok() && Runs(m, ops)
    ensures OnTape(Run(m, ops), m.contents, ops)
    decreases |ops|
  {
    if ops != [] {
      var before := ops[..|ops| - 1];
      hide OnTape;
      RunLast(m, ops);
      hide *;
      RunIsTape(m, before);
      StepIsTape(Run(m, before), m.contents, ops);
    }
  }

  // Until something is prepended there is room for eight bytes in front.
  lemma {:induction false} CheapPrepend(m: Image, ops: seq<Op>)
    requires m.Ok() && Runs(m, ops) && m.shape.reader >= CHEAP_PREPEND
    requires forall i :: 0 <= i < |ops| ==> !ops[i].Prepend?
    ensures Run(m, ops).shape.reader >= CHEAP_PREPEND
    decreases ops
  {
    if ops != [] {
      StaysCheap(m, ops[0]);
      hide Apply, Applicable;
      assert forall i :: 0 <= i < |ops| - 1 ==> ops[1..][i] == ops[i + 1];
      CheapPrepend(Apply(m, ops[0]), ops[1..]);
    }
  }

  lemma StaysCheap(m: Image, op: Op)
    requires m.Ok() && Applicable(m, op) && m.shape.reader >= CHEAP_PREPEND && !op.Prepend?
    ensures Apply(m, op).shape.reader >= CHEAP_PREPEND
  {
    if op.Shrink? {
      ShrunkShape(|m.contents|, op.reserve);
      hide Shrunk;
    }
  }

  // Taking everything gives all the space back.
  lemma EmptyIsFresh(m: Image)
    requires m.Ok()
    ensures var s := Apply(m, Op.Retrieve(|m.contents|)).shape;
      s.reader == CHEAP_PREPEND && s.Writable() == m.shape.size - CHEAP_PREPEND
  {
  }

  // Integers prepended one after the other read back in the opposite order,
  // in front of everything that was there.
  function PrependAll(xs: seq<Int>, contents: seq<Byte>): seq<Byte>
    requires AllOk(xs)
  {
    if xs == [] then contents else PrependAll(xs[1..], xs[0].Image() + contents)
  }

  function Backwards(xs: seq<Int>): (r: seq<Int>)
    requires AllOk(xs)
    ensures AllOk(r) && |r| == |xs|
    ensures forall i :: 0 <= i < |xs| ==> r[i] == xs[|xs| - 1 - i]
  {
    if xs == [] then [] else Backwards(xs[1..]) + [xs[0]]
  }

  lemma {:induction false} PrependAllImage(xs: seq<Int>, contents: seq<Byte>)
    requires AllOk(xs)
    ensures PrependAll(xs, contents) == EncodeAll(Backwards(xs)) + contents
  {
    if xs == [] {
      assert EncodeAll(Backwards(xs)) + contents == contents;
    } else {
      PrependAllImage(xs[1..], xs[0].Image() + contents);
      EncodeAllConcat(Backwards(xs[1..]), [xs[0]]);
      assert EncodeAll([xs[0]]) == xs[0].Image();
      assert (EncodeAll(Backwards(xs[1..])) + xs[0].Image()) + contents
          == EncodeAll(Backwards(xs[1..])) + (xs[0].Image() + contents);
    }
  }

  lemma PrependRoundTrip(xs: seq<Int>, contents: seq<Byte>)
    requires AllOk(xs)
    ensures DecodeAll(PrependAll(xs, contents), Widths(Backwards(xs))) == (Backwards(xs), contents)
  {
    PrependAllImage(xs, contents);
    DecodeAllEncodeAll(Backwards(xs), contents);
  }

  // The calls that prepend them, which are allowed as long as they fit in front.
  function Prepends(xs: seq<Int>): (ops: seq<Op>)
    requires AllOk(xs)
  {
    if xs == [] then [] else [Op.Prepend(xs[0].Image())] + Prepends(xs[1..])
  }

  lemma {:induction false} PrependsRun(m: Image, xs: seq<Int>)
    requires m.Ok() && AllOk(xs) && |EncodeAll(xs)| <= m.shape.reader
    ensures Runs(m, Prepends(xs)) && Run(m, Prepends(xs)).contents == PrependAll(xs, m.contents)
    decreases xs
  {
    if xs != [] {
      assert Prepends(xs)[1..] == Prepends(xs[1..]);
      PrependsRun(Apply(m, Op.Prepend(xs[0].Image())), xs[1..]);
    }
  }

  // A stretch of an array, taken directly or out of a longer stretch.
  lemma Stretch(a: array<Byte>, from: nat, to: nat, lo: nat, hi: nat)
    requires from <= lo <= hi <= to <= a.Length
    ensures a[lo..hi] == a[from..to][lo - from..hi - from] == a[..to][lo..hi] == a[from..][lo - from..hi - from]
    ensures a[lo..hi] == a[..][lo..hi]
  {
    forall i | 0 <= i < hi - lo
      ensures a[lo..hi][i] == a[from..to][lo - from..hi - from][i] == a[lo + i]
      ensures a[..to][lo..hi][i] == a[from..][lo - from..hi - from][i] == a[..][lo..hi][i] == a[lo + i]
    {
    }
  }

  lemma Joined(a: array<Byte>, lo: nat, mid: nat, hi: nat)
    requires lo <= mid <= hi <= a.Length
    ensures a[lo..hi] == a[lo..mid] + a[mid..hi]
  {
  }

  // ------------------------------------------------------------- the class

  class Buffer {
    var data: array<Byte>
    var readerIndex: nat
    var writerIndex: nat

    ghost predicate Valid()
      reads this
    {
      readerIndex <= writerIndex <= data.Length && CHEAP_PREPEND <= data.Length
    }

    ghost function Contents(): (s: seq<Byte>)
      reads this, data
      requires Valid()
    {
      data[readerIndex..writerIndex]
    }

    ghost function Layout(): Shape
      reads this
    {
      Shape(data.Length, readerIndex, writerIndex)
    }

    ghost function Value(): (m: Image)
      reads this, data
      requires Valid()
      ensures m.Ok()
    {
      Image(Contents(), Layout())
    }

    constructor (initialSize: nat := INITIAL_SIZE)
      ensures Valid() && fresh(data)
      ensures Value() == Image([], Fresh(initialSize))
    {
      data := new Byte[CHEAP_PREPEND + initialSize](_ => 0);
      readerIndex, writerIndex := CHEAP_PREPEND, CHEAP_PREPEND;
    }

    function ReadableBytes(): nat
      reads this
      requires Valid()
    {
      writerIndex - readerIndex
    }

    function WritableBytes(): nat
      reads this
      requires Valid()
    {
      data.Length - writerIndex
    }

    method RetrieveAll()
      requires Valid()
      modifies this`readerIndex, this`writerIndex
      ensures Valid() && Value() == Apply(old(Value()), Op.Retrieve(|old(Contents())|))
    {
      readerIndex, writerIndex := CHEAP_PREPEND, CHEAP_PREPEND;
      assert Contents() == [];
    }

    method Retrieve(len: nat)
      requires Valid() && len <= ReadableBytes()
      modifies this`readerIndex, this`writerIndex
      ensures Valid() && Value() == Apply(old(Value()), Op.Retrieve(len))
    {
      if len < ReadableBytes() {
        Stretch(data, readerIndex, writerIndex, readerIndex + len, writerIndex);
        readerIndex := readerIndex + len;
      } else {
        RetrieveAll();
      }
    }

    method RetrieveAsString(len: nat) returns (result: seq<Byte>)
      requires Valid() && len <= ReadableBytes()
      modifies this`readerIndex, this`writerIndex
      ensures Valid() && Value() == Apply(old(Value()), Op.Retrieve(len))
      ensures result == old(Contents())[..len]
    {
      result := data[readerIndex..writerIndex][..len];
      Retrieve(len);
    }

    method Unwrite(len: nat)
      requires Valid() && len <= ReadableBytes()
      modifies this`writerIndex
      ensures Valid() && Value() == Apply(old(Value()), Op.Unwrite(len))
    {
      Stretch(data, readerIndex, writerIndex, readerIndex, writerIndex - len);
      writerIndex := writerIndex - len;
    }

    // std::copy of bytes to position `at`.
    method CopyIn(at: nat, bytes: seq<Byte>)
      requires at + |bytes| <= data.Length
      modifies data
      ensures data[..at] == old(data[..at]) && data[at + |bytes|..] == old(data[at + |bytes|..])
      ensures data[at..at + |bytes|] == bytes
    {
      var i := 0;
      while i < |bytes|
        invariant 0 <= i <= |bytes|
        invariant data[..at] == old(data[..at]) && data[at + i..] == old(data[at + i..])
        invariant data[at..at + i] == bytes[..i]
      {
        data[at + i] := bytes[i];
        i := i + 1;
      }
    }

    // vector::resize to a larger size.
    method Resize(size: nat)
      requires data.Length <= size
      modifies this`data
      ensures fresh(data) && data.Length == size
      ensures data[..old(data.Length)] == old(data[..])
    {
      var grown := new Byte[size](_ => 0);
      var i := 0;
      while i < data.Length
        invariant 0 <= i <= data.Length && data == old(data) && fresh(grown)
        invariant grown[..i] == data[..i]
      {
        grown[i] := data[i];
        i := i + 1;
      }
      data := grown;
    }

    // The overlapping forward copy to the front: source and destination may
    // share cells, and no byte is read after it was overwritten.
    method SlideToFront()
      requires Valid() && CHEAP_PREPEND < readerIndex
      modifies data
      ensures data[CHEAP_PREPEND..CHEAP_PREPEND + ReadableBytes()] == old(Contents())
    {
      var n, i := ReadableBytes(), 0;
      while i < n
        invariant 0 <= i <= n
        invariant data[CHEAP_PREPEND..CHEAP_PREPEND + i] == old(data[readerIndex..readerIndex + i])
        invariant forall k :: readerIndex + i <= k < writerIndex ==> data[k] == old(data[k])
      {
        data[CHEAP_PREPEND + i] := data[readerIndex + i];
        i := i + 1;
      }
    }

    method MakeSpace(len: nat)
      requires Valid() && WritableBytes() < len
      modifies this, data
      ensures Valid() && (data == old(data) || fresh(data))
      ensures Contents() == old(Contents()) && Layout() == old(Layout()).MakeSpace(len)
    {
      if WritableBytes() + readerIndex < len + CHEAP_PREPEND {
        ghost var size := data.Length;
        Stretch(data, readerIndex, size, readerIndex, writerIndex);
        Resize(writerIndex + len);
        Stretch(data, readerIndex, size, readerIndex, writerIndex);
      } else {
        SlideMovesForward(Layout(), len);
        assert CHEAP_PREPEND < readerIndex;
        var readable := ReadableBytes();
        SlideToFront();
        readerIndex := CHEAP_PREPEND;
        writerIndex := readerIndex + readable;
      }
    }

    method EnsureWritableBytes(len: nat)
      requires Valid()
      modifies this, data
      ensures Valid() && (data == old(data) || fresh(data))
      ensures Contents() == old(Contents()) && Layout() == old(Layout()).EnsureWritable(len)
    {
      if WritableBytes() < len {
        MakeSpace(len);
      }
    }

    // Writes into the free space at the back.
    method Fill(bytes: seq<Byte>)
      requires Valid() && |bytes| <= WritableBytes()
      modifies this`writerIndex, data
      ensures Valid() && Contents() == old(Contents()) + bytes
      ensures Layout() == old(Layout()).(writer := old(writerIndex) + |bytes|)
    {
      Stretch(data, readerIndex, writerIndex, readerIndex, writerIndex);
      CopyIn(writerIndex, bytes);
      Stretch(data, readerIndex, writerIndex, readerIndex, writerIndex);
      Joined(data, readerIndex, writerIndex, writerIndex + |bytes|);
      writerIndex := writerIndex + |bytes|;
    }

    method Append(bytes: seq<Byte>)
      requires Valid()
      modifies this, data
      ensures Valid() && (data == old(data) || fresh(data))
      ensures Value() == Apply(old(Value()), Op.Append(bytes))
    {
      EnsureWritableBytes(|bytes|);
      Fill(bytes);
    }

    method Prepend(bytes: seq<Byte>)
      requires Valid() && |bytes| <= readerIndex
      modifies this`readerIndex, data
      ensures Valid() && Value() == Apply(old(Value()), Op.Prepend(bytes))
    {
      ghost var reader := readerIndex;
      Stretch(data, reader, writerIndex, reader, writerIndex);
      readerIndex := readerIndex - |bytes|;
      CopyIn(readerIndex, bytes);
      Stretch(data, reader, writerIndex, reader, writerIndex);
      Joined(data, readerIndex, reader, writerIndex);
    }

    // shrink fills a fresh buffer and swaps the two.
    method Shrink(reserve: nat)
      requires Valid()
      modifies this
      ensures Valid() && fresh(data)
      ensures Value() == Apply(old(Value()), Op.Shrink(reserve))
    {
      var other := new Buffer();
      ghost var before := Contents();
      other.EnsureWritableBytes(ReadableBytes() + reserve);
      assert other.Contents() == [];
      other.Append(data[readerIndex..writerIndex]);
      assert other.Contents() == before;
      data, readerIndex, writerIndex := other.data, other.readerIndex, other.writerIndex;
    }

    // readFd: `incoming` is what readv delivers, or its error number. The
    // kernel fills the free space first and the 64 KiB stack buffer after it.
    method ReadFd(incoming: Received) returns (n: int, savedErrno: int)
      requires Valid()
      requires incoming.Bytes? ==> |incoming.bytes| <= ScatterCapacity(WritableBytes())
      modifies this, data
      ensures Valid() && (data == old(data) || fresh(data))
      ensures incoming.Bytes? ==> n == |incoming.bytes| && Value() == Apply(old(Value()), Op.ReadFd(incoming.bytes))
      ensures incoming.Error? ==> n == -1 && savedErrno == incoming.errno && Value() == old(Value())
    {
      savedErrno := 0;
      match incoming
      case Error(errno) =>
        n, savedErrno := -1, errno;
      case Bytes(bytes) =>
        n := |bytes|;
        var writable := WritableBytes();
        if n <= writable {
          Fill(bytes);
        } else {
          Spill(bytes, writable);
        }
    }

    // The part of readFd for more bytes than there is free space.
    method Spill(bytes: seq<Byte>, writable: nat)
      requires Valid() && writable == WritableBytes() < |bytes|
      modifies this, data
      ensures Valid() && (data == old(data) || fresh(data))
      ensures Value() == Apply(old(Value()), Op.Append(bytes)).(shape := old(Layout()).ReadFd(|bytes|))
    {
      ghost var before := Contents();
      Fill(bytes[..writable]);
      Append(bytes[writable..]);
      Sequences.Append(before, bytes[..writable], bytes[writable..]);
      assert bytes == bytes[..writable] + bytes[writable..];
    }

    method Perform(op: Op)
      requires Valid() && Applicable(Value(), op)
      modifies this, data
      ensures Valid() && (data == old(data) || fresh(data))
      ensures Value() == Apply(old(Value()), op)
    {
      hide Apply;
      match op
      case Append(bytes) => Append(bytes);
      case Prepend(bytes) => Prepend(bytes);
      case Retrieve(len) => Retrieve(len);
      case Unwrite(len) => Unwrite(len);
      case Shrink(reserve) => Shrink(reserve);
      case ReadFd(bytes) => var n, errno := ReadFd(Bytes(bytes));
    }

    // Any calls one after the other, over the array with its growing, sliding
    // and swapping, end where the values end; and calls that only write at the
    // back and take from the front leave what was there and was written, less
    // what was taken.
    method PerformAll(ops: seq<Op>)
      requires Valid() && Runs(Value(), ops)
      modifies this, data
      ensures Valid() && (data == old(data) || fresh(data))
      ensures Value() == Run(old(Value()), ops) && OnTape(Value(), old(Contents()), ops)
      ensures QueueOnly(ops) ==>
                && Taken(ops) <= |old(Contents()) + Written(ops)|
                && Contents() == (old(Contents()) + Written(ops))[Taken(ops)..]
    {
      ghost var m := Value();
      RunIsTape(m, ops);
      hide Apply, Applicable, QueueOnly, Written, Taken, Front, Back, Cell;
      var i := 0;
      while i < |ops|
        invariant 0 <= i <= |ops| && Valid() && (data == old(data) || fresh(data))
        invariant Runs(Value(), ops[i..]) && Run(Value(), ops[i..]) == Run(m, ops)
      {
        assert ops[i..][0] == ops[i] && ops[i..][1..] == ops[i + 1..];
        Perform(ops[i]);
        i := i + 1;
      }
      if QueueOnly(ops) {
        RunIsQueue(m, ops);
      }
    }

    // appendInt8/16/32/64 on a host of either byte order.
    method AppendInt(h: Host, x: Int)
      requires Valid() && x.Ok()
      modifies this, data
      ensures Valid() && (data == old(data) || fresh(data))
      ensures Value() == Apply(old(Value()), Op.Append(x.Image()))
    {
      var u := ToUnsigned(x.value, x.width);
      WireImage(h, u, x.width);
      Append(Memory(h, HostToNetwork(h, u, x.width), x.width));
    }

    method PrependInt(h: Host, x: Int)
      requires Valid() && x.Ok() && x.width <= readerIndex
      modifies this`readerIndex, data
      ensures Valid() && Value() == Apply(old(Value()), Op.Prepend(x.Image()))
    {
      var u := ToUnsigned(x.value, x.width);
      WireImage(h, u, x.width);
      Prepend(Memory(h, HostToNetwork(h, u, x.width), x.width));
    }

    method PeekInt(h: Host, width: nat) returns (x: int)
      requires Valid() && width in {1, 2, 4, 8} && width <= ReadableBytes()
      ensures x == Decode(Contents()[..width])
    {
      var image := data[readerIndex..writerIndex][..width];
      WireValue(h, image);
      x := ToSigned(NetworkToHost(h, Load(h, image), width), width);
    }

    method ReadInt(h: Host, width: nat) returns (x: int)
      requires Valid() && width in {1, 2, 4, 8} && width <= ReadableBytes()
      modifies this`readerIndex, this`writerIndex
      ensures x == Decode(old(Contents())[..width])
      ensures Valid() && Value() == Apply(old(Value()), Op.Retrieve(width))
    {
      x := PeekInt(h, width);
      Retrieve(width);
    }
  }

  datatype Received = Bytes(bytes: seq<Byte>) | Error(errno: int)
}
