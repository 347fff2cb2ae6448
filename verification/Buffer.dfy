/** The application-level byte queue (util/buffer.h, util/buffer.cc): storage with a cheap
    prepend area, a reader index and a writer index.

    `Shape` keeps the three numbers that decide when the storage is compacted or grown; the class
    keeps the bytes. Every method of the class states both its effect on the byte sequence and
    the shape it leaves, and the capacity results are about runs over shapes. */
module Buffers {
  import opened Bytes

  const CHEAP_PREPEND: nat := 8
  const EXTRA_SIZE: nat := 65536

  // ---- Shapes -------------------------------------------------------------------------------

  datatype Shape = Shape(size: nat, reader: nat, writer: nat) {
    predicate Valid() { reader <= writer <= size }

    function Readable(): nat
      requires Valid()
    {
      writer - reader
    }

    function Writable(): nat
      requires Valid()
    {
      size - writer
    }
  }

  function FreshShape(initial: nat): Shape {
    Shape(CHEAP_PREPEND + initial, CHEAP_PREPEND, CHEAP_PREPEND)
  }

  /** Grow when even compaction would not free `len` bytes, otherwise move the data to the front.
      The compacting branch moves data towards the front, never away from it. */
  function MakeSpace(s: Shape, len: nat): (r: Shape)
    requires s.Valid() && s.Writable() < len
    ensures r.Valid() && r.Readable() == s.Readable() && r.Writable() >= len
    ensures s.size < r.size <==> s.size < CHEAP_PREPEND + s.Readable() + len
    ensures s.size < r.size ==> r.reader == s.reader && r.Writable() == len
    ensures r.size == s.size ==> r.reader == CHEAP_PREPEND < s.reader
  {
    if s.Writable() + s.reader < len + CHEAP_PREPEND then
      s.(size := s.writer + len)
    else
      s.(reader := CHEAP_PREPEND, writer := CHEAP_PREPEND + s.Readable())
  }

  function Appended(s: Shape, len: nat): (r: Shape)
    requires s.Valid()
    ensures r.Valid() && r.Readable() == s.Readable() + len
  {
    var t := if s.Writable() < len then MakeSpace(s, len) else s;
    t.(writer := t.writer + len)
  }

  function Prepended(s: Shape, len: nat): Shape
    requires s.Valid() && len <= s.reader
  {
    s.(reader := s.reader - len)
  }

  function Retrieved(s: Shape, len: nat): (r: Shape)
    requires s.Valid() && len <= s.Readable()
    requires CHEAP_PREPEND <= s.size
    ensures r.Valid() && r.Readable() == s.Readable() - len
  {
    if len < s.Readable() then s.(reader := s.reader + len)
    else s.(reader := CHEAP_PREPEND, writer := CHEAP_PREPEND)
  }

  /** The most one `readv` can return: the overflow area is offered only while the free space is
      smaller than it. */
  function ReadCapacity(s: Shape): (c: nat)
    requires s.Valid()
    ensures s.Writable() < EXTRA_SIZE ==> c <= 131071
    ensures s.Writable() <= c && 65536 <= c && (s.Writable() < 65536 ==> c == s.Writable() + 65536)
  {
    if s.Writable() < EXTRA_SIZE then s.Writable() + EXTRA_SIZE else s.Writable()
  }

  function Received(s: Shape, n: nat): Shape
    requires s.Valid()
  {
    if n <= s.Writable() then s.(writer := s.writer + n)
    else Appended(s.(writer := s.size), n - s.Writable())
  }

  // ---- Runs over a pool of buffers ----------------------------------------------------------

  datatype Op =
    | Append(at: nat, len: nat)
    | Prepend(at: nat, len: nat)
    | Retrieve(at: nat, len: nat)
    | ReadFd(at: nat, n: nat)
    | Swap(at: nat, other: nat)

  /** An empty buffer has its indices back at the prepend mark. Every operation keeps this, and
      it is what makes the capacity bound tight. */
  predicate Settled(s: Shape) {
    s.Valid() && CHEAP_PREPEND <= s.size && (s.reader == s.writer ==> s.reader == CHEAP_PREPEND)
  }

  /** `stores[i]` names the storage the i-th buffer has at the moment; a swap exchanges them.
      `peak` is the largest number of readable bytes any buffer of the pool ever held. */
  datatype Pool = Pool(shapes: seq<Shape>, stores: seq<nat>, peak: nat)

  ghost predicate PoolValid(p: Pool) {
    && |p.stores| == |p.shapes|
    && (forall i, j :: 0 <= i < j < |p.stores| ==> p.stores[i] != p.stores[j])
    && forall i :: 0 <= i < |p.shapes| ==> Settled(p.shapes[i]) && p.shapes[i].Readable() <= p.peak
  }

  /** What the asserts of the source and the kernel demand of a call on one buffer. */
  predicate LegalOne(s: Shape, op: Op)
    requires s.Valid()
  {
    match op
    case Append(_, _) => true
    case Prepend(_, len) => len <= s.reader
    case Retrieve(_, len) => len <= s.Readable()
    case ReadFd(_, n) => n <= ReadCapacity(s)
    case Swap(_, _) => false
  }

  ghost predicate Legal(p: Pool, op: Op)
    requires PoolValid(p)
  {
    op.at < |p.shapes| && if op.Swap? then op.other < |p.shapes| else LegalOne(p.shapes[op.at], op)
  }

  /** How many bytes the operation adds to what can be read. */
  function Gain(op: Op): int {
    match op
    case Append(_, len) => len
    case Prepend(_, len) => len
    case Retrieve(_, len) => var n: int := len; -n
    case ReadFd(_, n) => n
    case Swap(_, _) => 0
  }

  function One(s: Shape, op: Op): (r: Shape)
    requires Settled(s) && LegalOne(s, op)
    ensures Settled(r) && r.Readable() == s.Readable() + Gain(op)
  {
    match op
    case Append(_, len) => Appended(s, len)
    case Prepend(_, len) => Prepended(s, len)
    case Retrieve(_, len) => Retrieved(s, len)
    case ReadFd(_, n) => Received(s, n)
  }

  ghost function PoolStep(p: Pool, op: Op): (r: Pool)
    requires PoolValid(p) && Legal(p, op)
    ensures PoolValid(r)
  {
    if op.Swap? then
      p.(shapes := p.shapes[op.at := p.shapes[op.other]][op.other := p.shapes[op.at]],
         stores := p.stores[op.at := p.stores[op.other]][op.other := p.stores[op.at]])
    else
      var s := One(p.shapes[op.at], op);
      p.(shapes := p.shapes[op.at := s], peak := Max(p.peak, s.Readable()))
  }

  ghost predicate LegalRun(p: Pool, ops: seq<Op>)
    requires PoolValid(p)
    decreases |ops|
  {
    ops != [] ==> Legal(p, ops[0]) && LegalRun(PoolStep(p, ops[0]), ops[1..])
  }

  ghost function PoolRun(p: Pool, ops: seq<Op>): (r: Pool)
    requires PoolValid(p) && LegalRun(p, ops)
    ensures |r.shapes| == |p.shapes| && PoolValid(r)
    decreases |ops|
  {
    if ops == [] then p else PoolRun(PoolStep(p, ops[0]), ops[1..])
  }

  /** The largest storage a buffer of the given initial size can have when it never held more
      than `peak` bytes. */
  function Ceiling(initial: nat, peak: nat): nat {
    Max(CHEAP_PREPEND + initial, Max(CHEAP_PREPEND + peak, 2 * peak + 6))
  }

  ghost predicate Bounded(p: Pool, initial: nat) {
    forall i :: 0 <= i < |p.shapes| ==> p.shapes[i].size <= Ceiling(initial, p.peak)
  }

  /** Some buffer has the storage now, and it is at least so large. */
  ghost predicate InUse(p: Pool, store: nat, size: nat) {
    exists j :: 0 <= j < |p.stores| && j < |p.shapes| && p.stores[j] == store && size <= p.shapes[j].size
  }

  /** Every storage of `p` is still in use in `q`, in whichever buffer, and is no smaller. */
  ghost predicate NoneShrank(p: Pool, q: Pool)
    requires |p.stores| == |p.shapes|
  {
    forall i :: 0 <= i < |p.stores| ==> InUse(q, p.stores[i], p.shapes[i].size)
  }

  /** One operation on one buffer: the storage does not shrink, and when it grows it stays under
      the ceiling of the bytes then held. */
  lemma OneKeeps(s: Shape, op: Op)
    requires Settled(s) && LegalOne(s, op)
    ensures s.size <= One(s, op).size
    ensures s.size < One(s, op).size ==> One(s, op).size <= Ceiling(0, One(s, op).Readable())
  {
  }

  lemma SwapKeeps(p: Pool, op: Op, initial: nat)
    requires PoolValid(p) && Legal(p, op) && op.Swap? && Bounded(p, initial)
    ensures Bounded(PoolStep(p, op), initial) && NoneShrank(p, PoolStep(p, op))
  {
    var q := PoolStep(p, op);
    forall i | 0 <= i < |p.stores|
      ensures InUse(q, p.stores[i], p.shapes[i].size)
    {
      var j := if i == op.at then op.other else if i == op.other then op.at else i;
      assert q.stores[j] == p.stores[i];
    }
  }

  /** Replacing one shape by one that did not shrink, and grew only under its own ceiling. */
  lemma ReplaceKeeps(p: Pool, i: nat, s: Shape, initial: nat, q: Pool)
    requires i < |p.shapes| == |p.stores| && Bounded(p, initial) && s.Valid()
    requires p.shapes[i].size <= s.size
    requires p.shapes[i].size < s.size ==> s.size <= Ceiling(0, s.Readable())
    requires q == p.(shapes := p.shapes[i := s], peak := Max(p.peak, s.Readable()))
    ensures Bounded(q, initial) && NoneShrank(p, q)
  {
    forall k | 0 <= k < |p.stores|
      ensures InUse(q, p.stores[k], p.shapes[k].size)
    {
      assert q.stores[k] == p.stores[k];
    }
  }

  lemma OtherKeeps(p: Pool, op: Op, initial: nat)
    requires PoolValid(p) && Legal(p, op) && !op.Swap? && Bounded(p, initial)
    ensures Bounded(PoolStep(p, op), initial) && NoneShrank(p, PoolStep(p, op))
  {
    OneKeeps(p.shapes[op.at], op);
    hide One;
    hide Bounded;
    ReplaceKeeps(p, op.at, One(p.shapes[op.at], op), initial, PoolStep(p, op));
  }

  lemma PoolStepKeeps(p: Pool, op: Op, initial: nat)
    requires PoolValid(p) && Legal(p, op) && Bounded(p, initial)
    ensures var q := PoolStep(p, op);
            Bounded(q, initial) && |q.stores| == |q.shapes| && NoneShrank(p, q)
  {
    if op.Swap? { SwapKeeps(p, op, initial); } else { OtherKeeps(p, op, initial); }
  }

  lemma NoneShrankAtAll(p: Pool)
    requires |p.stores| == |p.shapes|
    ensures NoneShrank(p, p)
  {
    forall i | 0 <= i < |p.stores|
      ensures InUse(p, p.stores[i], p.shapes[i].size)
    {
      assert p.stores[i] == p.stores[i];
    }
  }

  lemma NoneShrankTwice(p: Pool, q: Pool, r: Pool)
    requires |p.stores| == |p.shapes| && |q.stores| == |q.shapes|
    requires NoneShrank(p, q) && NoneShrank(q, r)
    ensures NoneShrank(p, r)
  {
    forall i | 0 <= i < |p.stores|
      ensures InUse(r, p.stores[i], p.shapes[i].size)
    {
      assert InUse(q, p.stores[i], p.shapes[i].size);
      var j :| 0 <= j < |q.stores| && q.stores[j] == p.stores[i] && p.shapes[i].size <= q.shapes[j].size;
      assert InUse(r, q.stores[j], q.shapes[j].size);
    }
  }

  /** Over every legal run of every operation, on any number of buffers that also exchange their
      storage: each storage, followed through the exchanges, never shrinks, and no buffer
      outgrows the ceiling of the largest content ever held, which is itself at most
      max(8 + initial, 2 * peak + 7). */
  lemma {:induction false} CapacityBound(p: Pool, ops: seq<Op>, initial: nat)
    requires PoolValid(p) && LegalRun(p, ops) && Bounded(p, initial)
    ensures Bounded(PoolRun(p, ops), initial)
    ensures NoneShrank(p, PoolRun(p, ops))
    ensures Ceiling(initial, PoolRun(p, ops).peak)
            <= Max(CHEAP_PREPEND + initial, 2 * PoolRun(p, ops).peak + 7)
    decreases |ops|
  {
    assert |p.stores| == |p.shapes|;
    hide NoneShrank;
    hide Bounded;
    hide PoolValid;
    if ops == [] {
      NoneShrankAtAll(p);
    } else {
      PoolStepKeeps(p, ops[0], initial);
      hide PoolStep;
      var q := PoolStep(p, ops[0]);
      CapacityBound(q, ops[1..], initial);
      NoneShrankTwice(p, q, PoolRun(q, ops[1..]));
    }
  }

  function FreshPool(initial: nat): Pool { Pool([FreshShape(initial)], [0], 0) }

  lemma RunCons(p: Pool, op: Op, rest: seq<Op>)
    requires PoolValid(p) && Legal(p, op) && LegalRun(PoolStep(p, op), rest)
    ensures LegalRun(p, [op] + rest)
    ensures PoolRun(p, [op] + rest) == PoolRun(PoolStep(p, op), rest)
  {
    hide PoolStep;
    hide PoolValid;
    hide Legal;
    assert ([op] + rest)[1..] == rest;
  }

  lemma RunThree(p: Pool, a: Op, b: Op, c: Op)
    requires PoolValid(p) && Legal(p, a) && Legal(PoolStep(p, a), b) && Legal(PoolStep(PoolStep(p, a), b), c)
    ensures LegalRun(p, [a, b, c])
    ensures PoolRun(p, [a, b, c]) == PoolStep(PoolStep(PoolStep(p, a), b), c)
  {
    hide PoolStep;
    hide PoolValid;
    hide Legal;
    var q := PoolStep(p, a);
    var r := PoolStep(q, b);
    RunCons(r, c, []);
    RunCons(q, b, [c] + []);
    RunCons(p, a, [b] + ([c] + []));
    assert [a] + ([b] + ([c] + [])) == [a, b, c];
  }

  /** The ceiling cannot be lowered: for every peak of two or more some run of one buffer ends
      with exactly that much storage. */
  lemma CeilingIsReached(peak: nat)
    requires 2 <= peak
    ensures var ops := [Append(0, peak - 1), Retrieve(0, peak - 2), Append(0, peak - 1)];
            && LegalRun(FreshPool(peak - 1), ops)
            && PoolRun(FreshPool(peak - 1), ops).peak == peak
            && PoolRun(FreshPool(peak - 1), ops).shapes[0].size == Ceiling(peak - 1, peak)
  {
    var p0 := FreshPool(peak - 1);
    var p1 := PoolStep(p0, Append(0, peak - 1));
    assert p1 == Pool([Shape(peak + 7, 8, peak + 7)], [0], peak - 1);
    var p2 := PoolStep(p1, Retrieve(0, peak - 2));
    assert p2 == Pool([Shape(peak + 7, peak + 6, peak + 7)], [0], peak - 1);
    var p3 := PoolStep(p2, Append(0, peak - 1));
    assert p3 == Pool([Shape(2 * peak + 6, peak + 6, 2 * peak + 6)], [0], peak);
    RunThree(p0, Append(0, peak - 1), Retrieve(0, peak - 2), Append(0, peak - 1));
    hide PoolStep;
    hide LegalRun;
    hide PoolRun;
  }

  // ---- The buffer itself --------------------------------------------------------------------

  lemma JoinParts(held: string, bytes: string, n: nat, full: string)
    requires n <= |bytes| && full == held + bytes[..n]
    ensures full + bytes[n..] == held + bytes
  {
    assert bytes[..n] + bytes[n..] == bytes;
  }

  class Buffer {
    var data: array<char>
    var reader: nat
    var writer: nat

    ghost predicate Valid()
      reads this
    {
      reader <= writer <= data.Length && CHEAP_PREPEND <= data.Length
    }

    ghost function Contents(): string
      reads this, data
      requires Valid()
    {
      data[reader..writer]
    }

    ghost function View(): Shape
      reads this
    {
      Shape(data.Length, reader, writer)
    }

    constructor (initialSize: nat)
      ensures Valid() && fresh(data)
      ensures Contents() == "" && View() == FreshShape(initialSize)
    {
      data := new char[CHEAP_PREPEND + initialSize];
      reader, writer := CHEAP_PREPEND, CHEAP_PREPEND;
    }

    /** Exchanges storage and indices with `rhs`, which may be this very buffer. */
    method Swap(rhs: Buffer)
      requires Valid() && rhs.Valid()
      modifies this, rhs
      ensures Valid() && rhs.Valid()
      ensures View() == old(rhs.View()) && rhs.View() == old(View())
      ensures data == old(rhs.data) && rhs.data == old(data)
      ensures Contents() == old(rhs.Contents()) && rhs.Contents() == old(Contents())
    {
      var d, r, w := data, reader, writer;
      data, reader, writer := rhs.data, rhs.reader, rhs.writer;
      rhs.data, rhs.reader, rhs.writer := d, r, w;
    }

    method Retrieve(len: nat)
      requires Valid() && len <= writer - reader
      modifies this
      ensures Valid() && data == old(data)
      ensures Contents() == old(Contents())[len..]
      ensures View() == Retrieved(old(View()), len)
    {
      if len < writer - reader {
        reader := reader + len;
      } else {
        RetrieveAll();
      }
    }

    method RetrieveAll()
      requires Valid()
      modifies this
      ensures Valid() && data == old(data)
      ensures Contents() == "" && View() == Retrieved(old(View()), old(View()).Readable())
    {
      reader, writer := CHEAP_PREPEND, CHEAP_PREPEND;
    }

    /** Moves the readable bytes to the prepend mark. The loop copies onto overlapping cells,
        front first, so no byte is overwritten before it has been copied. */
    method Compact()
      requires Valid() && CHEAP_PREPEND < reader
      modifies this`reader, this`writer, data
      ensures Valid() && reader == CHEAP_PREPEND
      ensures Contents() == old(Contents())
    {
      var readable := writer - reader;
      ghost var shift := reader - CHEAP_PREPEND;
      var i := 0;
      while i < readable
        invariant 0 <= i <= readable
        invariant forall k :: CHEAP_PREPEND <= k < CHEAP_PREPEND + i ==> data[k] == old(data[..])[k + shift]
        invariant forall k :: reader + i <= k < writer ==> data[k] == old(data[..])[k]
        modifies data
      {
        data[CHEAP_PREPEND + i] := data[reader + i];
        i := i + 1;
      }
      reader := CHEAP_PREPEND;
      writer := reader + readable;
    }

    /** Makes room for `len` bytes without changing what the buffer holds. */
    method MakeRoom(len: nat)
      requires Valid() && data.Length - writer < len
      modifies this, data
      ensures Valid() && (data == old(data) || fresh(data))
      ensures Contents() == old(Contents())
      ensures View() == MakeSpace(old(View()), len)
    {
      if data.Length - writer + reader < len + CHEAP_PREPEND {
        var bigger := new char[writer + len];
        forall i | 0 <= i < data.Length {
          bigger[i] := data[i];
        }
        data := bigger;
      } else {
        Compact();
      }
    }

    /** std::copy of `src` to the cells starting at `at`. */
    method CopyIn(at: nat, src: string)
      requires at + |src| <= data.Length
      modifies data
      ensures data[at..at + |src|] == src
      ensures forall k :: 0 <= k < data.Length && !(at <= k < at + |src|) ==> data[k] == old(data[k])
    {
      forall i | 0 <= i < |src| {
        data[at + i] := src[i];
      }
    }

    /** Copies into the free space and advances the writer over what was copied. */
    method Fill(src: string)
      requires Valid() && |src| <= data.Length - writer
      modifies this`writer, data
      ensures Valid() && writer == old(writer) + |src|
      ensures Contents() == old(Contents()) + src
    {
      CopyIn(writer, src);
      writer := writer + |src|;
      assert data[reader..old(writer)] == old(Contents());
      assert data[old(writer)..writer] == src;
      assert data[reader..writer] == data[reader..old(writer)] + data[old(writer)..writer];
    }

    method Append(src: string)
      requires Valid()
      modifies this, data
      ensures Valid() && (data == old(data) || fresh(data))
      ensures Contents() == old(Contents()) + src
      ensures View() == Appended(old(View()), |src|)
    {
      if data.Length - writer < |src| {
        MakeRoom(|src|);
      }
      Fill(src);
    }

    method Prepend(src: string)
      requires Valid() && |src| <= reader
      modifies this, data
      ensures Valid() && data == old(data)
      ensures Contents() == src + old(Contents())
      ensures View() == Prepended(old(View()), |src|)
    {
      reader := reader - |src|;
      CopyIn(reader, src);
      assert data[reader..writer] == data[reader..reader + |src|] + data[reader + |src|..writer];
    }

    /** The bytes of a read that filled the buffer and went on into the overflow area. */
    method TakeBoth(bytes: string)
      requires Valid() && data.Length - writer < |bytes|
      modifies this, data
      ensures Valid() && (data == old(data) || fresh(data))
      ensures Contents() == old(Contents()) + bytes
      ensures View() == Received(old(View()), |bytes|)
    {
      hide Appended;
      var writable := data.Length - writer;
      Fill(bytes[..writable]);
      ghost var full := Contents();
      Append(bytes[writable..]);
      JoinParts(old(Contents()), bytes, writable, full);
    }

    /** Reads from a descriptor on which `pending` has arrived. The kernel answers with an error
        when `ask` is negative and otherwise with any number of bytes up to `ask` that the two
        regions offered can hold. Nothing is read only where nothing has arrived or the kernel
        gives nothing, and up to 65536 bytes are taken whatever room is left. Whatever the
        scatter read does, the effect is an append of the bytes received. */
    method ReadFd(pending: string, ask: int) returns (n: int)
      requires Valid()
      modifies this, data
      ensures Valid() && (data == old(data) || fresh(data))
      ensures ask < 0 ==> n == -1 && Contents() == old(Contents()) && View() == old(View())
      ensures ask >= 0 ==> n == Min(Min(ask, |pending|), ReadCapacity(old(View())))
      ensures ask >= 0 ==> (n == 0 <==> ask == 0 || pending == "")
      ensures 0 <= ask && (|pending| <= 65536 || ask <= 65536) ==> n == Min(ask, |pending|)
      ensures ask >= 0 ==> Contents() == old(Contents()) + pending[..n]
      ensures ask >= 0 ==> View() == Received(old(View()), n)
    {
      var writable := data.Length - writer;
      var capacity := if writable < EXTRA_SIZE then writable + EXTRA_SIZE else writable;
      if ask < 0 {
        return -1;
      }
      n := Min(Min(ask, |pending|), capacity);
      if n <= writable {
        Fill(pending[..n]);
      } else {
        TakeBoth(pending[..n]);
      }
    }
  }
}
