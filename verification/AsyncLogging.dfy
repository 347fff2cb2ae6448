/** The double-buffered logger (log/async_logging.cc): any number of appenders and one worker
    exchange owned buffers under a mutex; the worker writes to the log file outside the lock.

    A buffer is uniquely owned, so it is a value here: the list of the slices in it. A step that
    is not enabled leaves the state unchanged, so every list of steps is an interleaving. */
module AsyncLoggings {
  import opened Bytes
  import LogFiles

  const CAPACITY: nat := 4096

  datatype Option<T> = None | Some(value: T)

  type Block = seq<string>

  function Space(b: Block): int { CAPACITY - |Flat(b)| }

  /** The worker is at the loop condition, inside the lock, after writing `i` of its buffers,
      or gone. */
  datatype Pc = Top | Locking | Writing(i: nat) | Stopped

  /** `accepted` lists the slices in lock order, `written` the buffers handed to the log file in
      order; `overflows` counts the buffers filled up since the worker's last swap. */
  datatype State = State(
    cur: Block, next: Option<Block>, buffers: seq<Block>,
    pc: Pc, temp1: Option<Block>, temp2: Option<Block>, temps: seq<Block>,
    done: bool, accepted: seq<string>, written: seq<Block>, overflows: nat)

  datatype Step =
    | Append(slice: string)
    | Stop          // StopWorker sets `done`
    | Test          // the worker's loop condition
    | Swap          // the worker's critical section, after the wait if there was one
    | WriteOne
    | Recycle

  /** The assert of the buffer an append ends up in. */
  predicate Fits(s: State, slice: string) {
    || |slice| <= Space(s.cur)
    || |slice| <= Space(if s.next.Some? then s.next.value else [])
  }

  predicate Enabled(s: State, step: Step) {
    match step
    case Append(slice) => Fits(s, slice)
    case Stop => true
    case Test => s.pc == Top
    case Swap => s.pc == Locking
    case WriteOne => s.pc.Writing? && s.pc.i < |s.temps|
    case Recycle => s.pc.Writing? && s.pc.i >= |s.temps|
  }

  function Owned(b: Option<Block>): seq<Block> {
    if b.Some? then [b.value] else []
  }

  function DoAppend(s: State, slice: string): State {
    var s := s.(accepted := s.accepted + [slice]);
    if |slice| <= Space(s.cur) then s.(cur := s.cur + [slice])
    else
      var spare := if s.next.Some? then s.next.value else [];
      s.(buffers := s.buffers + [s.cur], cur := spare + [slice], next := None, overflows := s.overflows + 1)
  }

  /** The swaps under the lock and the two pushes after it. */
  function DoSwap(s: State): State {
    var cur := if s.temp1.Some? then s.temp1.value else [];
    var (next, temp2) := if s.next.None? then (s.temp2, s.next) else (s.next, s.temp2);
    s.(cur := cur, next := next, buffers := [], overflows := 0, pc := Writing(0),
       temp1 := None, temp2 := None, temps := s.buffers + [s.cur] + Owned(temp2))
  }

  /** Keeps the first two buffers, emptied; a shorter list would leave a null pointer. */
  function DoRecycle(s: State): State {
    s.(pc := Top, temps := [],
       temp1 := if 1 < |s.temps| then Some([]) else None,
       temp2 := if 0 < |s.temps| then Some([]) else None)
  }

  function Apply(s: State, step: Step): State {
    if !Enabled(s, step) then s
    else
      match step
      case Append(slice) => DoAppend(s, slice)
      case Stop => s.(done := true)
      case Test => s.(pc := if s.done then Stopped else Locking)
      case Swap => DoSwap(s)
      case WriteOne => s.(pc := Writing(s.pc.i + 1), written := s.written + [s.temps[s.pc.i]])
      case Recycle => DoRecycle(s)
  }

  function Run(s: State, steps: seq<Step>): State {
    if steps == [] then s else Apply(Run(s, steps[..|steps| - 1]), steps[|steps| - 1])
  }

  function Start(): State {
    State([], Some([]), [], Top, Some([]), Some([]), [], false, [], [], 0)
  }

  // ---- The invariant ------------------------------------------------------------------------

  /** The buffers the worker took and has not written yet. */
  function Unwritten(s: State): seq<Block> {
    if s.pc.Writing? && s.pc.i <= |s.temps| then s.temps[s.pc.i..] else []
  }

  /** All buffers that hold log data, oldest data first. */
  function Chain(s: State): seq<Block> {
    s.written + Unwritten(s) + s.buffers + [s.cur]
  }

  ghost predicate Conserved(s: State) { s.accepted == Flat(Chain(s)) }

  ghost predicate SharedInv(s: State) {
    && (s.next.None? <==> s.buffers != [])
    && (s.next.Some? ==> s.next.value == [])
    && s.overflows == |s.buffers|
    && 0 <= Space(s.cur)
  }

  ghost predicate WorkerInv(s: State) {
    if s.pc.Writing? then
      s.temp1.None? && s.temp2.None? && 2 <= |s.temps| && s.pc.i <= |s.temps|
    else
      s.temp1 == Some([]) && s.temp2 == Some([]) && s.temps == []
  }

  ghost predicate Inv(s: State) {
    Conserved(s) && SharedInv(s) && WorkerInv(s)
  }

  lemma FlatOfOne(slice: string)
    ensures Flat([slice]) == slice && Space([]) == CAPACITY
  {
    FlatSnoc([], slice);
    assert [] + [slice] == [slice];
    assert Flat<char>([]) == [];
  }

  lemma ExtendLast(older: seq<Block>, cur: Block, slice: string)
    ensures Flat(older + [cur + [slice]]) == Flat(older + [cur]) + [slice]
  {
    FlatSnoc(older, cur);
    FlatSnoc(older, cur + [slice]);
    hide Flat;
    assert Flat(older) + cur + [slice] == Flat(older) + (cur + [slice]);
  }

  lemma AppendConserves(s: State, slice: string)
    requires Conserved(s) && (s.next.Some? ==> s.next.value == [])
    ensures Conserved(DoAppend(s, slice))
  {
    var d := DoAppend(s, slice);
    var older := s.written + Unwritten(s) + s.buffers;
    hide Flat;
    if |slice| <= Space(s.cur) {
      ExtendLast(older, s.cur, slice);
      assert Chain(d) == older + [s.cur + [slice]];
    } else {
      FlatSnoc(Chain(s), [slice]);
      assert d.cur == [slice];
      assert Chain(d) == Chain(s) + [[slice]];
    }
  }

  lemma AppendKeeps(s: State, slice: string)
    requires Inv(s) && Fits(s, slice)
    ensures Inv(DoAppend(s, slice))
  {
    AppendConserves(s, slice);
    FlatSnoc(s.cur, slice);
    FlatOfOne(slice);
    if |slice| > Space(s.cur) { assert DoAppend(s, slice).cur == [slice]; }
  }

  lemma SwapKeeps(s: State)
    requires Inv(s) && s.pc == Locking
    ensures Inv(DoSwap(s))
  {
    hide Flat;
    var d := DoSwap(s);
    FlatOfOne("");
    if s.next.Some? {
      assert Chain(d) == Chain(s) + [[]] + [[]];
      FlatSnoc(Chain(s), []);
      FlatSnoc(Chain(s) + [[]], []);
    } else {
      assert Chain(d) == Chain(s) + [[]];
      FlatSnoc(Chain(s), []);
    }
  }

  lemma WriteKeeps(s: State)
    requires Inv(s) && Enabled(s, WriteOne)
    ensures Inv(Apply(s, WriteOne))
  {
    assert Chain(Apply(s, WriteOne)) == Chain(s);
  }

  lemma RecycleKeeps(s: State)
    requires Inv(s) && Enabled(s, Recycle)
    ensures Inv(Apply(s, Recycle))
  {
    assert Chain(Apply(s, Recycle)) == Chain(s);
  }

  lemma StepKeeps(s: State, step: Step)
    requires Inv(s)
    ensures Inv(Apply(s, step))
  {
    if Enabled(s, step) {
      match step
      case Append(slice) => AppendKeeps(s, slice);
      case Stop =>
      case Test =>
      case Swap => SwapKeeps(s);
      case WriteOne => WriteKeeps(s);
      case Recycle => RecycleKeeps(s);
    }
  }

  lemma StartsWell()
    ensures Inv(Start())
  {
    FlatOfOne("");
    assert Flat<string>([]) == [];
    hide Flat;
    assert Chain(Start()) == [] + [[]];
    FlatSnoc<string>([], []);
  }

  lemma {:induction false} InvKept(s: State, steps: seq<Step>)
    requires Inv(s)
    ensures Inv(Run(s, steps))
  {
    hide Inv;
    if steps != [] {
      InvKept(s, steps[..|steps| - 1]);
      StepKeeps(Run(s, steps[..|steps| - 1]), steps[|steps| - 1]);
    }
  }

  /** Every interleaving of appenders, worker and `StopWorker`: the buffers written, those the
      worker still holds, the filled ones and the current one are exactly the accepted slices,
      in lock order. */
  lemma InvHolds(steps: seq<Step>)
    ensures Inv(Run(Start(), steps))
  {
    StartsWell();
    InvKept(Start(), steps);
    hide Run;
    hide Inv;
  }

  /** What was offered and fitted, whatever the worker did in between. */
  function Offered(steps: seq<Step>): seq<string> {
    if steps == [] then []
    else
      var before, last := steps[..|steps| - 1], steps[|steps| - 1];
      Offered(before) + if last.Append? && |last.slice| <= CAPACITY then [last.slice] else []
  }

  /** In every reachable state an append trips its assert exactly when the slice is longer than
      a whole buffer: a slice of at most 4096 bytes always fits. */
  lemma FitsExactly(steps: seq<Step>, slice: string)
    ensures Fits(Run(Start(), steps), slice) <==> |slice| <= 4096
  {
    InvHolds(steps);
    FlatOfOne(slice);
  }

  lemma AcceptedGrows(s: State, step: Step)
    ensures Apply(s, step).accepted
            == s.accepted + if step.Append? && Fits(s, step.slice) then [step.slice] else []
  {
  }

  lemma {:induction false} AcceptedIsOffered(steps: seq<Step>)
    ensures Run(Start(), steps).accepted == Offered(steps)
  {
    if steps != [] {
      var before, last := steps[..|steps| - 1], steps[|steps| - 1];
      AcceptedIsOffered(before);
      AcceptedGrows(Run(Start(), before), last);
      if last.Append? { FitsExactly(before, last.slice); }
    }
  }

  /** No append of the run trips its assert, which would end the program. */
  predicate NoAssertFires(steps: seq<Step>) {
    forall i :: 0 <= i < |steps| && steps[i].Append? ==> Fits(Run(Start(), steps[..i]), steps[i].slice)
  }

  function Slices(steps: seq<Step>): seq<string> {
    if steps == [] then []
    else Slices(steps[..|steps| - 1]) + if steps[|steps| - 1].Append? then [steps[|steps| - 1].slice] else []
  }

  /** The runs the program survives are those without a slice longer than a buffer, and in them
      every slice appended is accepted, in lock order. */
  lemma {:induction false} SurvivingRunsAcceptAll(steps: seq<Step>)
    ensures NoAssertFires(steps) <==>
              forall i :: 0 <= i < |steps| && steps[i].Append? ==> |steps[i].slice| <= CAPACITY
    ensures NoAssertFires(steps) ==> Run(Start(), steps).accepted == Slices(steps)
  {
    forall i | 0 <= i < |steps| && steps[i].Append?
      ensures Fits(Run(Start(), steps[..i]), steps[i].slice) <==> |steps[i].slice| <= CAPACITY
    {
      FitsExactly(steps[..i], steps[i].slice);
    }
    hide Run;
    hide Fits;
    AcceptedIsOffered(steps);
    if NoAssertFires(steps) {
      forall i | 0 <= i < |steps| && steps[i].Append? ensures |steps[i].slice| <= CAPACITY {
        FitsExactly(steps[..i], steps[i].slice);
      }
      OfferedIsAll(steps);
    }
  }

  lemma {:induction false} OfferedIsAll(steps: seq<Step>)
    requires forall i :: 0 <= i < |steps| && steps[i].Append? ==> |steps[i].slice| <= CAPACITY
    ensures Offered(steps) == Slices(steps)
  {
    if steps != [] { OfferedIsAll(steps[..|steps| - 1]); }
  }

  lemma WrittenIsAPrefix(s: State)
    requires Conserved(s)
    ensures Flat(s.written) <= s.accepted
    ensures Unwritten(s) == [] ==> s.accepted == Flat(s.written) + Flat(s.buffers + [s.cur])
  {
    var rest := Unwritten(s) + s.buffers + [s.cur];
    assert Chain(s) == s.written + rest;
    FlatAppend(s.written, rest);
    if Unwritten(s) == [] { assert rest == s.buffers + [s.cur]; }
  }

  /** The worker's output is always a prefix of the log. */
  lemma OutputIsAPrefix(steps: seq<Step>)
    ensures Flat(Run(Start(), steps).written) <= Offered(steps)
  {
    InvHolds(steps);
    AcceptedIsOffered(steps);
    WrittenIsAPrefix(Run(Start(), steps));
  }

  // ---- What stopping loses ------------------------------------------------------------------

  /** How many steps of the run come before the worker's last swap; none if it never swapped. */
  function LastSwap(steps: seq<Step>): (k: nat)
    ensures k <= |steps|
  {
    if steps == [] then 0
    else
      var before := steps[..|steps| - 1];
      if steps[|steps| - 1].Swap? && Enabled(Run(Start(), before), Swap) then |before| else LastSwap(before)
  }

  /** The worker has taken everything accepted before its last swap, and nothing since. */
  ghost predicate TookUpTo(s: State, log: seq<string>) {
    Flat(s.written + Unwritten(s)) == log
  }

  lemma SwapTakesAll(s: State)
    requires Inv(s) && s.pc == Locking
    ensures TookUpTo(DoSwap(s), s.accepted)
  {
    var d := DoSwap(s);
    SwapKeeps(s);
    hide Flat;
    assert d.cur == [] && d.buffers == [];
    assert Chain(d) == d.written + Unwritten(d) + [[]];
    FlatSnoc(d.written + Unwritten(d), []);
    assert Flat(d.written + Unwritten(d)) + [] == Flat(d.written + Unwritten(d));
  }

  lemma OtherStepsTakeNothing(s: State, step: Step, log: seq<string>)
    requires Inv(s) && TookUpTo(s, log) && !(step.Swap? && Enabled(s, step))
    ensures TookUpTo(Apply(s, step), log)
  {
    var d := Apply(s, step);
    hide Flat;
    assert d.written + Unwritten(d) == s.written + Unwritten(s);
  }

  lemma {:induction false} TakenAtLastSwap(steps: seq<Step>)
    ensures TookUpTo(Run(Start(), steps), Offered(steps[..LastSwap(steps)]))
  {
    if steps == [] {
      assert Flat<string>([]) == [];
    } else {
      var before, last := steps[..|steps| - 1], steps[|steps| - 1];
      var s := Run(Start(), before);
      InvHolds(before);
      if last.Swap? && Enabled(s, Swap) {
        SwapTakesAll(s);
        AcceptedIsOffered(before);
      } else {
        TakenAtLastSwap(before);
        assert steps[..LastSwap(before)] == before[..LastSwap(before)];
        OtherStepsTakeNothing(s, last, Offered(before[..LastSwap(before)]));
      }
    }
  }

  predicate Accepts(step: Step) { step.Append? && |step.slice| <= CAPACITY }

  lemma {:induction false} OfferedSince(steps: seq<Step>, k: nat)
    requires k <= |steps|
    ensures Offered(steps[..k]) <= Offered(steps)
    ensures Offered(steps[..k]) == Offered(steps) <==> forall i :: k <= i < |steps| ==> !Accepts(steps[i])
    decreases |steps|
  {
    if k == |steps| {
      assert steps[..k] == steps;
    } else {
      var before := steps[..|steps| - 1];
      OfferedSince(before, k);
      assert before[..k] == steps[..k];
      assert forall i :: k <= i < |before| ==> before[i] == steps[i];
    }
  }

  /** Stopping does not drain. Once the worker has stopped, the file holds exactly the slices
      accepted before its last swap; so the log is complete if and only if no slice was accepted
      after that. */
  lemma StopLosesWhatCameAfterTheLastSwap(steps: seq<Step>)
    requires Run(Start(), steps).pc == Stopped
    ensures Flat(Run(Start(), steps).written) == Offered(steps[..LastSwap(steps)])
    ensures Flat(Run(Start(), steps).written) == Offered(steps) <==>
              forall i :: LastSwap(steps) <= i < |steps| ==> !Accepts(steps[i])
  {
    TakenAtLastSwap(steps);
    OfferedSince(steps, LastSwap(steps));
    var s := Run(Start(), steps);
    assert s.written + [] == s.written;
  }

  /** The shortest way to lose a slice: append it and stop before the worker looks. */
  lemma LosingRun(slice: string)
    requires |slice| <= CAPACITY
    ensures var s := Run(Start(), [Append(slice), Stop, Test]);
            s.pc == Stopped && s.accepted == [slice] && s.written == []
  {
    var steps := [Append(slice), Stop, Test];
    assert steps[..2] == [Append(slice), Stop] && steps[..2][..1] == [Append(slice)] && steps[..2][..1][..0] == [];
    FlatOfOne(slice);
    var s1 := Apply(Start(), Append(slice));
    assert s1.accepted == [slice] && s1.pc == Top;
    assert Run(Start(), []) == Start();
    assert Run(Start(), [Append(slice)]) == s1;
    var s2 := Apply(s1, Stop);
    assert Run(Start(), [Append(slice), Stop]) == s2;
  }

  // ---- Buffers alive ------------------------------------------------------------------------

  function Live(s: State): nat {
    1 + |Owned(s.next)| + |s.buffers| + |Owned(s.temp1)| + |Owned(s.temp2)| + |s.temps|
  }

  /** At the loop top the worker's three asserts hold and 3 + max(1, overflows) buffers exist;
      while it writes it has at least two to recycle; and under the lock the spare buffer is
      gone exactly when some buffer is full. */
  lemma BuffersAreRecycled(steps: seq<Step>)
    ensures var s := Run(Start(), steps);
            && (s.pc == Top ==> s.temp1.Some? && s.temp2.Some? && s.temps == []
                                && Live(s) == 3 + Max(1, s.overflows))
            && (s.pc.Writing? ==> 2 <= |s.temps|)
            && (s.next.None? <==> s.buffers != [])
            && (s.next.Some? ==> s.next.value == [])
  {
    InvHolds(steps);
  }

  /** The first buffer had no room for the slice the second begins with. */
  predicate NoRoom(first: Block, second: Block) {
    second != [] && CAPACITY < |Flat(first)| + |second[0]|
  }

  function After(s: State, i: nat): Block
    requires i < |s.buffers|
  {
    if i + 1 < |s.buffers| then s.buffers[i + 1] else s.cur
  }

  ghost predicate Packed(s: State) {
    forall i :: 0 <= i < |s.buffers| ==> NoRoom(s.buffers[i], After(s, i))
  }

  lemma AppendPacks(s: State, slice: string)
    requires Packed(s) && (s.next.Some? ==> s.next.value == [])
    ensures Packed(DoAppend(s, slice))
  {
    var d := DoAppend(s, slice);
    hide Flat;
    forall i | 0 <= i < |d.buffers|
      ensures NoRoom(d.buffers[i], After(d, i))
    {
      if i < |s.buffers| { assert NoRoom(s.buffers[i], After(s, i)); }
    }
  }

  lemma SpareIsEmpty(s: State)
    requires Inv(s)
    ensures s.next.Some? ==> s.next.value == []
  {
  }

  lemma StepPacks(s: State, step: Step)
    requires Inv(s) && Packed(s)
    ensures Packed(Apply(s, step))
  {
    SpareIsEmpty(s);
    hide Inv;
    hide NoRoom;
    if step.Append? { AppendPacks(s, step.slice); }
  }

  /** In every interleaving the buffers are filled up before the next one is begun. */
  lemma {:induction false} BuffersAreFilled(steps: seq<Step>)
    ensures Packed(Run(Start(), steps))
  {
    if steps != [] {
      var before, last := steps[..|steps| - 1], steps[|steps| - 1];
      BuffersAreFilled(before);
      InvHolds(before);
      hide Inv;
      hide Apply;
      hide Packed;
      StepPacks(Run(Start(), before), last);
    }
  }

  // ---- Stopping -----------------------------------------------------------------------------

  predicate StopAsked(steps: seq<Step>) { Stop in steps }

  /** The worker has tested its condition after a stop was asked for. */
  predicate StopSeen(steps: seq<Step>) {
    steps != [] &&
    var before, last := steps[..|steps| - 1], steps[|steps| - 1];
    StopSeen(before) || (last.Test? && Run(Start(), before).pc == Top && StopAsked(before))
  }

  /** In every interleaving the worker is gone exactly when it has seen the flag, and the flag is
      set exactly when a stop was asked for. */
  lemma {:induction false} WorkerStopsWhenAsked(steps: seq<Step>)
    ensures Run(Start(), steps).done <==> StopAsked(steps)
    ensures Run(Start(), steps).pc == Stopped <==> StopSeen(steps)
  {
    if steps != [] {
      var before, last := steps[..|steps| - 1], steps[|steps| - 1];
      assert steps == before + [last];
      WorkerStopsWhenAsked(before);
    }
  }

  // ---- Down to the files --------------------------------------------------------------------

  /** The log file receives the written buffers one by one. */
  ghost predicate Feeds(written: seq<Block>, calls: seq<LogFiles.Call>) {
    |calls| == |written| && forall i :: 0 <= i < |calls| ==> calls[i].slice == Flat(written[i])
  }

  lemma {:induction false} FedBytes(written: seq<Block>, calls: seq<LogFiles.Call>)
    requires Feeds(written, calls)
    ensures Flat(LogFiles.Offered(calls)) == Flat(Flat(written))
    decreases |calls|
  {
    if calls != [] {
      var n := |calls| - 1;
      FedBytes(written[..n], calls[..n]);
      FlatSnoc(LogFiles.Offered(calls[..n]), calls[n].slice);
      FlatAppend(Flat(written[..n]), written[n]);
    }
  }

  lemma FlatOfPrefix(a: seq<string>, b: seq<string>)
    requires a <= b
    ensures Flat(a) <= Flat(b)
  {
    FlatAppend(a, b[|a|..]);
    assert a + b[|a|..] == b;
  }

  /** From the appenders to the disk: for every interleaving, every clock and every pattern of
      partial writes that does not give up, the log files in order hold a prefix of the bytes
      of the log, and no file is longer than the rolling size plus one buffer. */
  lemma FilesHoldAPrefix(steps: seq<Step>, now: nat, calls: seq<LogFiles.Call>)
    requires Feeds(Run(Start(), steps).written, calls)
    requires forall i :: 0 <= i < |calls| ==> LogFiles.Complete(calls[i])
    ensures var files := LogFiles.Files(LogFiles.Run(LogFiles.Opened(now), calls));
            && LogFiles.BytesOf(files) == Flat(Flat(Run(Start(), steps).written))
            && LogFiles.BytesOf(files) <= Flat(Offered(steps))
            && forall i :: 0 <= i < |files| ==> LogFiles.Sized(files[i])
  {
    LogFiles.OpenedLogIsSound(now, calls);
    LogFiles.CompleteParts(calls);
    FedBytes(Run(Start(), steps).written, calls);
    OutputIsAPrefix(steps);
    FlatOfPrefix(Flat(Run(Start(), steps).written), Offered(steps));
  }

  // ---- The logger object --------------------------------------------------------------------

  lemma RunSnoc(s: State, steps: seq<Step>, step: Step)
    ensures Run(s, steps + [step]) == Apply(Run(s, steps), step)
  {
    assert (steps + [step])[..|steps|] == steps;
  }

  lemma {:induction false} RunAppend(s: State, a: seq<Step>, b: seq<Step>)
    ensures Run(s, a + b) == Run(Run(s, a), b)
    decreases |b|
  {
    hide Apply;
    if b == [] {
      assert a + b == a;
    } else {
      assert (a + b)[..|a + b| - 1] == a + b[..|b| - 1];
      RunAppend(s, a, b[..|b| - 1]);
    }
  }

  lemma {:induction false} AcceptedKept(s: State, steps: seq<Step>)
    ensures s.accepted <= Run(s, steps).accepted
  {
    if steps != [] {
      AcceptedKept(s, steps[..|steps| - 1]);
      AcceptedGrows(Run(s, steps[..|steps| - 1]), steps[|steps| - 1]);
    }
  }

  /** What a swap leaves the worker with, and what it needs for it. */
  lemma TakesAll(s: State)
    requires Inv(s) && s.pc == Locking
    ensures s.temp1.Some? && s.temp2.Some?
    ensures var d := Apply(s, Swap); Flat(d.written + d.temps) == s.accepted
  {
    SwapTakesAll(s);
    var d := Apply(s, Swap);
    hide Flat;
    assert Unwritten(d) == d.temps;
  }

  lemma Committed(s: State)
    requires Inv(s)
    ensures Flat(s.written) <= s.accepted
  {
    WrittenIsAPrefix(s);
  }

  /** The appends of other threads as steps. */
  function Appends(slices: seq<string>): seq<Step> {
    seq(|slices|, i requires 0 <= i < |slices| => Append(slices[i]))
  }

  /** What other threads append while the worker waits, before each of its writes, and whether
      someone stops it. */
  datatype Turn = Turn(waiting: seq<string>, writing: seq<seq<string>>, stops: bool)

  // The steps of the worker in order.

  function Writes(n: nat, others: seq<seq<string>>): seq<Step>
    decreases n
  {
    if n == 0 then []
    else if others == [] then [WriteOne] + Writes(n - 1, [])
    else Appends(others[0]) + [WriteOne] + Writes(n - 1, others[1..])
  }

  function PassSteps(s: State, turn: Turn): seq<Step> {
    var taking := Appends(turn.waiting) + [Swap];
    taking + Writes(|Run(s, taking).temps|, turn.writing) + [Recycle]
  }

  function TurnSteps(s: State, turn: Turn): seq<Step> {
    [Test] + PassSteps(Apply(s, Test), turn) + if turn.stops then [Stop] else []
  }

  /** The worker from its loop condition on, until it sees the flag or no turn is left. */
  function WorkerTrace(s: State, turns: seq<Turn>): seq<Step>
    decreases |turns|
  {
    if s.done then [Test]
    else if turns == [] then []
    else TurnSteps(s, turns[0]) + WorkerTrace(Run(s, TurnSteps(s, turns[0])), turns[1..])
  }

  lemma Join(a: seq<Step>, b: seq<Step>, c: seq<Step>)
    ensures a + (b + c) == a + b + c && a + [] == a
  {
  }

  lemma WritesNext(trace: seq<Step>, n: nat, others: seq<seq<string>>, i: nat)
    requires n > 0 && i <= |others|
    ensures var mine := if i < |others| then Appends(others[i]) else [];
            var next := if i < |others| then i + 1 else i;
            trace + Writes(n, others[i..]) == (trace + mine + [WriteOne]) + Writes(n - 1, others[next..])
  {
    var mine := if i < |others| then Appends(others[i]) else [];
    var rest := Writes(n - 1, others[if i < |others| then i + 1 else i..]);
    if i < |others| {
      assert others[i..][0] == others[i] && others[i..][1..] == others[i + 1..];
      assert Writes(n, others[i..]) == mine + [WriteOne] + rest;
    } else {
      assert Writes(n, others[i..]) == [WriteOne] + rest && [] + [WriteOne] == [WriteOne];
    }
    hide Writes;
    hide Appends;
    Join(trace, mine, [WriteOne]);
    Join(trace, mine + [WriteOne], rest);
  }

  lemma WritesNone(others: seq<seq<string>>)
    ensures Writes(0, others) == []
  {
  }

  lemma WorkerTraceNext(s: State, turns: seq<Turn>, i: nat)
    requires i < |turns| && !s.done
    ensures WorkerTrace(s, turns[i..]) ==
              TurnSteps(s, turns[i]) + WorkerTrace(Run(s, TurnSteps(s, turns[i])), turns[i + 1..])
  {
    assert turns[i..][0] == turns[i] && turns[i..][1..] == turns[i + 1..];
  }

  lemma WorkerTraceEnd(s: State, turns: seq<Turn>, i: nat)
    requires i <= |turns| && (s.done || i == |turns|)
    ensures WorkerTrace(s, turns[i..]) == if s.done then [Test] else []
  {
  }

  class AsyncLogging {
    var cur: Block
    var next: Option<Block>
    var buffers: seq<Block>
    var pc: Pc
    var temp1: Option<Block>
    var temp2: Option<Block>
    var temps: seq<Block>
    var done: bool
    ghost var accepted: seq<string>
    var written: seq<Block>
    ghost var overflows: nat

    ghost function View(): State
      reads this
    {
      State(cur, next, buffers, pc, temp1, temp2, temps, done, accepted, written, overflows)
    }

    constructor ()
      ensures View() == Start()
    {
      cur, next, buffers, done := [], Some([]), [], false;
      pc, temp1, temp2, temps := Top, Some([]), Some([]), [];
      accepted, written, overflows := [], [], 0;
    }

    /** The whole of `Append` runs under the lock; `ok` is the assert of the buffer. */
    method AppendSlice(slice: string) returns (ok: bool)
      modifies this`cur, this`next, this`buffers, this`accepted, this`overflows
      ensures View() == Apply(old(View()), Append(slice))
      ensures ok == Fits(old(View()), slice)
    {
      if Space(cur) >= |slice| {
        cur := cur + [slice];
      } else {
        var spare := if next.Some? then next.value else [];
        if Space(spare) < |slice| {
          return false;
        }
        buffers := buffers + [cur];
        next := None;
        cur := spare + [slice];
        overflows := overflows + 1;
      }
      accepted := accepted + [slice];
      ok := true;
    }

    method StopWorker()
      modifies this`done
      ensures View() == Apply(old(View()), Stop) && done
    {
      done := true;
    }

    /** The worker's loop condition. */
    method TestDone()
      requires pc == Top
      modifies this`pc
      ensures View() == Apply(old(View()), Test) && pc == if done then Stopped else Locking
    {
      pc := if done then Stopped else Locking;
    }

    /** The worker's critical section and the pushes after it. */
    method TakeBuffers()
      requires pc == Locking && temp1.Some? && temp2.Some?
      modifies this
      ensures View() == Apply(old(View()), Swap) && pc == Writing(0)
      ensures done == old(done)
    {
      hide Fits;
      hide DoAppend;
      hide DoRecycle;
      var t1, t2 := temp1.value, temp2;
      t1, cur := cur, t1;
      if next.None? {
        t2, next := next, t2;
      }
      temps, buffers := buffers, [];
      temps := temps + [t1];
      if t2.Some? {
        temps := temps + [t2.value];
      }
      temp1, temp2, overflows, pc := None, None, 0, Writing(0);
      assert temps == old(buffers) + [old(cur)] + Owned(t2);
    }

    /** Hands the next buffer to the log file, outside the lock. */
    method WriteNext()
      requires pc.Writing? && pc.i < |temps|
      modifies this`pc, this`written
      ensures View() == Apply(old(View()), WriteOne) && pc == Writing(old(pc.i) + 1)
      ensures written == old(written) + [temps[old(pc.i)]]
    {
      written := written + [temps[pc.i]];
      pc := Writing(pc.i + 1);
    }

    method RecycleBuffers()
      requires pc == Writing(|temps|)
      modifies this`pc, this`temp1, this`temp2, this`temps
      ensures View() == Apply(old(View()), Recycle) && pc == Top
    {
      temp1 := if 1 < |temps| then Some([]) else None;
      temp2 := if 0 < |temps| then Some([]) else None;
      temps, pc := [], Top;
    }

    /** Other threads append. */
    method Interfere(slices: seq<string>, ghost s: State, ghost trace: seq<Step>)
      requires View() == Run(s, trace)
      modifies this`cur, this`next, this`buffers, this`accepted, this`overflows
      ensures View() == Run(s, trace + Appends(slices))
    {
      hide Apply;
      hide Run;
      assert trace + Appends(slices)[..0] == trace;
      for i := 0 to |slices|
        invariant View() == Run(s, trace + Appends(slices)[..i])
      {
        RunSnoc(s, trace + Appends(slices)[..i], Append(slices[i]));
        assert trace + Appends(slices)[..i + 1] == trace + Appends(slices)[..i] + [Append(slices[i])];
        var ok := AppendSlice(slices[i]);
      }
      assert Appends(slices)[..|slices|] == Appends(slices);
    }

    /** Writes all the buffers taken while other threads go on appending. */
    method WriteAll(others: seq<seq<string>>, ghost s: State, ghost trace: seq<Step>) returns (ghost trace': seq<Step>)
      requires pc == Writing(0) && View() == Run(s, trace)
      modifies this`cur, this`next, this`buffers, this`accepted, this`overflows, this`pc, this`written
      ensures pc == Writing(|temps|) && View() == Run(s, trace')
      ensures written == old(written) + temps
      ensures trace' == trace + Writes(|temps|, others)
    {
      hide Apply;
      hide Run;
      hide Writes;
      hide Appends;
      trace' := trace;
      var i := 0;
      ghost var k := 0;
      ghost var all := trace + Writes(|temps|, others);
      assert others[0..] == others;
      while i < |temps|
        invariant 0 <= i <= |temps| && pc == Writing(i) && View() == Run(s, trace')
        invariant k == (if i < |others| then i else |others|) && trace' + Writes(|temps| - i, others[k..]) == all
        invariant written == old(written) + temps[..i]
      {
        WritesNext(trace', |temps| - i, others, k);
        if i < |others| {
          Interfere(others[i], s, trace');
          trace' := trace' + Appends(others[i]);
          k := k + 1;
        }
        Join(trace', [], []);
        RunSnoc(s, trace', WriteOne);
        WriteNext();
        trace' := trace' + [WriteOne];
        i := i + 1;
      }
      WritesNone(others[k..]);
      Join(trace', [], []);
    }

    /** Waits while other threads append, then swaps: what it takes is all that was accepted. */
    method WaitAndTake(waiting: seq<string>, ghost s: State, ghost trace: seq<Step>) returns (ghost trace': seq<Step>)
      requires pc == Locking && Inv(s) && View() == Run(s, trace)
      modifies this
      ensures pc == Writing(0) && View() == Run(s, trace') && done == old(done)
      ensures old(accepted) <= Flat(written + temps)
      ensures trace' == trace + (Appends(waiting) + [Swap])
    {
      hide Apply;
      hide Run;
      hide Flat;
      AcceptedKept(View(), Appends(waiting));
      RunAppend(s, trace, Appends(waiting));
      Interfere(waiting, s, trace);
      trace' := trace + Appends(waiting);
      InvKept(s, trace');
      TakesAll(View());
      RunSnoc(s, trace', Swap);
      TakeBuffers();
      trace' := trace' + [Swap];
    }

    /** One pass of the worker's loop while other threads go on appending: everything accepted
        before its swap is written, in order, and two empty buffers are back. */
    method Pass(turn: Turn, ghost s: State, ghost trace: seq<Step>) returns (ghost trace': seq<Step>)
      requires pc == Locking && Inv(s) && View() == Run(s, trace)
      modifies this
      ensures pc == Top && View() == Run(s, trace') && Inv(View()) && done == old(done)
      ensures old(accepted) <= Flat(written) <= accepted
      ensures trace' == trace + PassSteps(old(View()), turn)
    {
      hide Apply;
      hide Run;
      hide Inv;
      hide Flat;
      hide Writes;
      hide Appends;
      ghost var taking := Appends(turn.waiting) + [Swap];
      RunAppend(s, trace, taking);
      trace' := WaitAndTake(turn.waiting, s, trace);
      ghost var n := |temps|;
      trace' := WriteAll(turn.writing, s, trace');
      RunSnoc(s, trace', Recycle);
      RecycleBuffers();
      trace' := trace' + [Recycle];
      Join(trace, taking, Writes(n, turn.writing));
      Join(trace, taking + Writes(n, turn.writing), [Recycle]);
      InvKept(s, trace');
      Committed(View());
    }

    /** One turn of the worker's loop. */
    method OneTurn(turn: Turn, ghost s: State, ghost trace: seq<Step>) returns (ghost trace': seq<Step>)
      requires pc == Top && !done && Inv(s) && View() == Run(s, trace)
      modifies this
      ensures pc == Top && View() == Run(s, trace') && (turn.stops ==> done)
      ensures trace' == trace + TurnSteps(old(View()), turn)
    {
      hide Apply;
      hide Run;
      hide Inv;
      hide PassSteps;
      ghost var start := View();
      RunSnoc(s, trace, Test);
      TestDone();
      trace' := trace + [Test];
      ghost var steps := PassSteps(View(), turn);
      trace' := Pass(turn, s, trace');
      Join(trace, [Test], steps);
      Join(trace, [Test] + steps, if turn.stops then [Stop] else []);
      Join(trace', [], []);
      if turn.stops {
        RunSnoc(s, trace', Stop);
        StopWorker();
        trace' := trace' + [Stop];
      }
    }

    /** At the loop condition before the i-th turn; `all` are the steps of the whole loop. */
    ghost predicate AtTurn(turns: seq<Turn>, i: nat, s: State, trace: seq<Step>, all: seq<Step>)
      reads this
    {
      && i <= |turns| && pc == Top && View() == Run(s, trace)
      && trace + WorkerTrace(View(), turns[i..]) == all
      && (!done ==> forall j :: 0 <= j < i ==> !turns[j].stops)
    }

    method NextTurn(turns: seq<Turn>, i: nat, ghost s: State, ghost trace: seq<Step>, ghost all: seq<Step>)
      returns (ghost trace': seq<Step>)
      requires i < |turns| && !done && Inv(s) && AtTurn(turns, i, s, trace, all)
      modifies this
      ensures AtTurn(turns, i + 1, s, trace', all)
    {
      hide Apply;
      hide Run;
      hide Inv;
      hide TurnSteps;
      hide WorkerTrace;
      ghost var was := View();
      ghost var steps := TurnSteps(was, turns[i]);
      WorkerTraceNext(was, turns, i);
      trace' := OneTurn(turns[i], s, trace);
      RunAppend(s, trace, steps);
      Join(trace, steps, WorkerTrace(View(), turns[i + 1..]));
    }

    /** The worker, over as many turns as are described: it ends `Stopped` exactly when it saw
        `done`, which is no later than after a turn in which it was stopped. Whatever other
        threads do, it is an interleaving, so every result about those holds of it. */
    method Worker(turns: seq<Turn>) returns (ghost trace: seq<Step>)
      requires pc == Top && Inv(View())
      modifies this
      ensures View() == Run(old(View()), trace) && Inv(View())
      ensures if done then pc == Stopped else pc == Top
      ensures pc == Top ==> forall i :: 0 <= i < |turns| ==> !turns[i].stops
      ensures trace == WorkerTrace(old(View()), turns)
    {
      ghost var s := View();
      trace := [];
      assert Run(s, []) == s;
      hide Apply;
      hide Run;
      hide Inv;
      hide WorkerTrace;
      ghost var all := WorkerTrace(View(), turns);
      assert [] + all == all && turns[0..] == turns;
      var i := 0;
      while i < |turns| && !done
        invariant AtTurn(turns, i, s, trace, all)
        decreases |turns| - i
      {
        trace := NextTurn(turns, i, s, trace, all);
        i := i + 1;
      }
      WorkerTraceEnd(View(), turns, i);
      Join(trace, [], []);
      if done {
        RunSnoc(s, trace, Test);
        TestDone();
        trace := trace + [Test];
      }
      InvKept(s, trace);
    }
  }
}
