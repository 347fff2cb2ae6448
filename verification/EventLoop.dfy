/** The cross-thread task queue and its eventfd wake-up (net/eventloop.cc, net/eventloop.h) as
    interleaved atomic steps. A step that is not enabled leaves the state unchanged, so every
    list of steps is an interleaving of the loop thread with any number of callers. */
module EventLoops {

  type Thread = nat

  datatype Task = Task(owner: Thread, job: nat)

  /** A caller of `RunInLoop` or `quit` between its push or flag write and its eventfd write. */
  datatype Caller = Pushed | QuitSet

  datatype Pc =
    | Outside                // not inside loop()
    | Testing                // at the while condition
    | BeforePoll             // condition found false, poll(2) not yet called
    | Polling                // inside poll(2)
    | Handling(wake: bool)   // running channel handlers; `wake`: the eventfd read is still due
    | Swapping               // doPendingFunctors before the lock
    | Running                // doPendingFunctors after the lock

  /** `counter` is the eventfd's value, `callers` the callers that still have to write it.
      `pushed` and `ran` list the tasks in the order they were pushed and run;
      `pollsAfterQuit` counts the polls begun while `quit` was set. */
  datatype State = State(
    pc: Pc, quit: bool, counter: nat, callers: map<Thread, Caller>,
    queue: seq<Task>, batch: seq<Task>,
    pushed: seq<Task>, ran: seq<Task>, pollsAfterQuit: nat)

  datatype Step =
    | Push(t: Thread, job: nat)
    | SetQuit(t: Thread)
    | Wake(t: Thread)
    | Enter
    | Test
    | BeginPoll
    | PollReturn(failed: bool, other: bool)  // `other`: a descriptor besides the eventfd is ready
    | ReadEventfd
    | LoopQuit                               // quit() called by a handler or a task
    | FinishHandlers
    | Swap
    | RunOne
    | FinishBatch

  const EVENTFD_MAX: nat := 0xffff_ffff_ffff_fffe

  predicate Enabled(s: State, step: Step) {
    match step
    case Push(t, _) => t !in s.callers
    case SetQuit(t) => t !in s.callers
    case Wake(t) => t in s.callers
    case Enter => s.pc == Outside
    case Test => s.pc == Testing
    case BeginPoll => s.pc == BeforePoll
    case PollReturn(failed, other) => s.pc == Polling && (failed || other || 0 < s.counter)
    case ReadEventfd => s.pc == Handling(true)
    case LoopQuit => s.pc.Handling? || s.pc == Running
    case FinishHandlers => s.pc == Handling(false)
    case Swap => s.pc == Swapping
    case RunOne => s.pc == Running && s.batch != []
    case FinishBatch => s.pc == Running && s.batch == []
  }

  /** A write of one that would overflow the counter fails and leaves it positive. */
  function Bump(counter: nat): (r: nat)
    ensures 0 < r
  {
    if counter == EVENTFD_MAX then counter else counter + 1
  }

  function Act(s: State, step: Step): State
    requires Enabled(s, step)
  {
    match step
    case Push(t, job) =>
      s.(queue := s.queue + [Task(t, job)], pushed := s.pushed + [Task(t, job)],
         callers := s.callers[t := Pushed])
    case SetQuit(t) => s.(quit := true, callers := s.callers[t := QuitSet])
    case Wake(t) => s.(counter := Bump(s.counter), callers := s.callers - {t})
    case Enter => s.(pc := Testing, quit := false, pollsAfterQuit := 0)
    case Test => s.(pc := if s.quit then Outside else BeforePoll)
    case BeginPoll =>
      s.(pc := Polling, pollsAfterQuit := s.pollsAfterQuit + if s.quit then 1 else 0)
    case PollReturn(failed, _) => s.(pc := Handling(!failed && 0 < s.counter))
    case ReadEventfd => s.(pc := Handling(false), counter := 0)
    case LoopQuit => s.(quit := true, counter := Bump(s.counter))
    case FinishHandlers => s.(pc := Swapping)
    case Swap => s.(pc := Running, batch := s.queue, queue := [])
    case RunOne => s.(batch := s.batch[1..], ran := s.ran + [s.batch[0]])
    case FinishBatch => s.(pc := Testing)
  }

  function Apply(s: State, step: Step): State {
    if Enabled(s, step) then Act(s, step) else s
  }

  function Run(s: State, steps: seq<Step>): State {
    if steps == [] then s else Apply(Run(s, steps[..|steps| - 1]), steps[|steps| - 1])
  }

  function Start(): State {
    State(Outside, false, 0, map[], [], [], [], [], 0)
  }

  // ---- The invariant ------------------------------------------------------------------------

  ghost predicate Waking(s: State, kind: Caller) {
    exists t :: t in s.callers && s.callers[t] == kind
  }

  ghost predicate Inv(s: State) {
    && s.ran + s.batch + s.queue == s.pushed
    && (s.pc != Running ==> s.batch == [])
    && (s.pc == Handling(true) ==> 0 < s.counter)
       // A queued task nobody will announce any more is about to be swapped out.
    && (s.queue != [] && s.counter == 0 ==> Waking(s, Pushed) || s.pc.Handling? || s.pc == Swapping)
       // A quit nobody will announce any more is about to be tested.
    && (s.quit && s.counter == 0 && (s.pc == BeforePoll || s.pc == Polling) ==> Waking(s, QuitSet))
       // The condition is tested between a quit and the second poll after it.
    && (!s.quit || s.pc == BeforePoll ==> s.pollsAfterQuit == 0)
    && s.pollsAfterQuit <= 1
  }

  lemma CallersKept(s: State, t: Thread, kind: Caller, other: Caller)
    requires t !in s.callers && Waking(s, other)
    ensures Waking(s.(callers := s.callers[t := kind]), other)
  {
    var u :| u in s.callers && s.callers[u] == other;
    assert s.callers[t := kind][u] == other;
  }

  lemma CallerStepKeeps(s: State, step: Step)
    requires Inv(s) && Enabled(s, step) && (step.Push? || step.SetQuit? || step.Wake?)
    ensures Inv(Act(s, step))
  {
    match step
    case Push(t, job) =>
      if Waking(s, QuitSet) { CallersKept(s, t, Pushed, QuitSet); }
      assert Act(s, step).callers[t] == Pushed;
      assert s.ran + s.batch + (s.queue + [Task(t, job)]) == s.ran + s.batch + s.queue + [Task(t, job)];
    case SetQuit(t) =>
      if Waking(s, Pushed) { CallersKept(s, t, QuitSet, Pushed); }
      assert Act(s, step).callers[t] == QuitSet;
    case Wake(t) =>
  }

  lemma LoopStepKeeps(s: State, step: Step)
    requires Inv(s) && Enabled(s, step) && !(step.Push? || step.SetQuit? || step.Wake?)
    ensures Inv(Act(s, step))
  {
    assert Waking(Act(s, step), Pushed) == Waking(s, Pushed);
    assert Waking(Act(s, step), QuitSet) == Waking(s, QuitSet);
    if step.RunOne? {
      assert s.batch == [s.batch[0]] + s.batch[1..];
      assert s.ran + [s.batch[0]] + s.batch[1..] == s.ran + s.batch;
    }
  }

  /** Every interleaving keeps the invariant. */
  lemma {:induction false} InvHolds(s: State, steps: seq<Step>)
    requires Inv(s)
    ensures Inv(Run(s, steps))
  {
    if steps != [] {
      var before := Run(s, steps[..|steps| - 1]);
      var step := steps[|steps| - 1];
      InvHolds(s, steps[..|steps| - 1]);
      if Enabled(before, step) {
        if step.Push? || step.SetQuit? || step.Wake? { CallerStepKeeps(before, step); }
        else { LoopStepKeeps(before, step); }
      }
    }
  }

  /** In every interleaving: the loop is never inside poll(2) with a task queued or a quit
      requested since loop() was entered, unless the eventfd is readable or some caller has
      still to write it; and at most one poll begins after the quit. */
  lemma NoLostWakeup(steps: seq<Step>)
    ensures var s := Run(Start(), steps);
            && (s.pc == Polling && s.queue != [] ==> 0 < s.counter || Waking(s, Pushed))
            && (s.pc == Polling && s.quit ==> 0 < s.counter || Waking(s, QuitSet))
            && s.pollsAfterQuit <= 1
  {
    InvHolds(Start(), steps);
  }

  // ---- Order of the tasks -------------------------------------------------------------------

  function Of(t: Thread, tasks: seq<Task>): seq<Task> {
    if tasks == [] then []
    else Of(t, tasks[..|tasks| - 1]) + if tasks[|tasks| - 1].owner == t then [tasks[|tasks| - 1]] else []
  }

  lemma {:induction false} OfAppend(t: Thread, a: seq<Task>, b: seq<Task>)
    ensures Of(t, a + b) == Of(t, a) + Of(t, b)
    decreases |b|
  {
    if b == [] {
      assert a + b == a;
    } else {
      assert (a + b)[..|a + b| - 1] == a + b[..|b| - 1];
      OfAppend(t, a, b[..|b| - 1]);
    }
  }

  /** Tasks run exactly once and in lock order: those run, the rest of the batch and the queue
      make up all pushes; so each thread's tasks run in the order it submitted them. */
  lemma TasksRunInOrder(steps: seq<Step>, t: Thread)
    ensures var s := Run(Start(), steps);
            && s.pushed == s.ran + s.batch + s.queue
            && Of(t, s.pushed) == Of(t, s.ran) + Of(t, s.batch + s.queue)
            && Of(t, s.ran) <= Of(t, s.pushed)
  {
    var s := Run(Start(), steps);
    InvHolds(Start(), steps);
    assert s.ran + s.batch + s.queue == s.ran + (s.batch + s.queue);
    OfAppend(t, s.ran, s.batch + s.queue);
  }

  /** Every push of an idle caller is recorded, so `pushed` is what was submitted and not a
      by-product of what ran. */
  function Submitted(s: State, steps: seq<Step>): seq<Task> {
    if steps == [] then []
    else
      var before := steps[..|steps| - 1];
      var last := steps[|steps| - 1];
      Submitted(s, before)
      + if last.Push? && last.t !in Run(s, before).callers then [Task(last.t, last.job)] else []
  }

  lemma {:induction false} PushedIsSubmitted(s: State, steps: seq<Step>)
    ensures Run(s, steps).pushed == s.pushed + Submitted(s, steps)
  {
    if steps != [] { PushedIsSubmitted(s, steps[..|steps| - 1]); }
  }

  // ---- What the steps leave behind ----------------------------------------------------------

  /** A quit, from another thread or on the loop thread, since loop() was last entered. */
  function QuitAsked(s: State, steps: seq<Step>): bool {
    if steps == [] then s.quit
    else
      var before, last := steps[..|steps| - 1], steps[|steps| - 1];
      if (last.SetQuit? || last.LoopQuit?) && Enabled(Run(s, before), last) then true
      else if last.Enter? && Enabled(Run(s, before), last) then false
      else QuitAsked(s, before)
  }

  /** The thread's last call has not written the eventfd yet. */
  predicate Owes(steps: seq<Step>, t: Thread) {
    steps != [] &&
    var last := steps[|steps| - 1];
    if (last.Push? || last.SetQuit?) && last.t == t then true
    else if last.Wake? && last.t == t then false
    else Owes(steps[..|steps| - 1], t)
  }

  /** How often the eventfd was written since it was last read. */
  function Writes(steps: seq<Step>): nat {
    if steps == [] then 0
    else
      var before, last := steps[..|steps| - 1], steps[|steps| - 1];
      if last.ReadEventfd? && Enabled(Run(Start(), before), last) then 0
      else if last.Wake? && Owes(before, last.t) then Writes(before) + 1
      else if last.LoopQuit? && Enabled(Run(Start(), before), last) then Writes(before) + 1
      else Writes(before)
  }

  /** poll(2) has reported the eventfd and it has not been read since. */
  predicate ReadDue(steps: seq<Step>) {
    steps != [] &&
    var before, last := steps[..|steps| - 1], steps[|steps| - 1];
    if last.PollReturn? && Run(Start(), before).pc == Polling && !last.failed && 0 < Writes(before) then true
    else if last.ReadEventfd? && Enabled(Run(Start(), before), last) then false
    else ReadDue(before)
  }

  /** In every interleaving the flag says that a quit was asked for since loop() was entered,
      whoever asked. */
  lemma {:induction false} QuitIsSeen(s: State, steps: seq<Step>)
    ensures Run(s, steps).quit == QuitAsked(s, steps)
  {
    if steps != [] { QuitIsSeen(s, steps[..|steps| - 1]); }
  }

  /** In every interleaving the callers still to write the eventfd are those whose last call has
      not done so. */
  lemma {:induction false} CallersAreThoseWhoOwe(steps: seq<Step>, t: Thread)
    ensures t in Run(Start(), steps).callers <==> Owes(steps, t)
  {
    if steps != [] { CallersAreThoseWhoOwe(steps[..|steps| - 1], t); }
  }

  /** In every interleaving the eventfd counts its writes since the last read, up to its limit. */
  lemma {:induction false} EventfdCountsWrites(steps: seq<Step>)
    ensures var most := 0xffff_ffff_ffff_fffe;
            Run(Start(), steps).counter == if Writes(steps) <= most then Writes(steps) else most
  {
    if steps != [] {
      var before, last := steps[..|steps| - 1], steps[|steps| - 1];
      EventfdCountsWrites(before);
      if last.Wake? { CallersAreThoseWhoOwe(before, last.t); }
      hide Owes;
    }
  }

  /** In every interleaving poll(2), with nothing else ready, returns without an error exactly when
      the eventfd was written since it was last read; so the loop sleeps while nobody calls. */
  lemma PollWaitsForAWrite(steps: seq<Step>)
    requires Run(Start(), steps).pc == Polling
    ensures Enabled(Run(Start(), steps), PollReturn(false, false)) <==> 0 < Writes(steps)
  {
    EventfdCountsWrites(steps);
  }

  lemma ReadStep(s: State, step: Step)
    ensures Apply(s, step).pc == Handling(true) <==>
              if step.PollReturn? && s.pc == Polling && !step.failed && 0 < s.counter then true
              else if step.ReadEventfd? && Enabled(s, step) then false
              else s.pc == Handling(true)
  {
  }

  /** In every interleaving the loop is about to read the eventfd exactly when poll(2) has reported
      it and it has not been read since; so it never goes on without reading it. */
  lemma {:induction false} ReportedIsRead(steps: seq<Step>)
    ensures Run(Start(), steps).pc == Handling(true) <==> ReadDue(steps)
  {
    if steps != [] {
      var before, last := steps[..|steps| - 1], steps[|steps| - 1];
      ReportedIsRead(before);
      EventfdCountsWrites(before);
      ReadStep(Run(Start(), before), last);
      hide Writes;
      hide Apply;
    }
  }

  // ---- Leaving the loop ---------------------------------------------------------------------

  predicate LoopStep(step: Step) {
    !(step.Push? || step.SetQuit? || step.Wake? || step.Enter? || step.LoopQuit?)
  }

  /** How many steps the loop thread has left once `quit` is set. */
  function Left(s: State): nat {
    match s.pc
    case Outside => 0
    case Testing => 1
    case Running => 2 + |s.batch|
    case Swapping => 3 + |s.queue|
    case Handling(false) => 4 + |s.queue|
    case Handling(true) => 5 + |s.queue|
    case Polling => 6 + |s.queue|
    case BeforePoll => 7 + |s.queue|
  }

  function LoopSteps(s: State, steps: seq<Step>): nat {
    if steps == [] then 0
    else
      var before := steps[..|steps| - 1];
      var last := steps[|steps| - 1];
      LoopSteps(s, before) + if LoopStep(last) && Enabled(Run(s, before), last) then 1 else 0
  }

  function Pushes(steps: seq<Step>): nat {
    if steps == [] then 0
    else Pushes(steps[..|steps| - 1]) + if steps[|steps| - 1].Push? then 1 else 0
  }

  lemma LeftFalls(s: State, step: Step)
    requires s.quit && !step.Enter?
    ensures Apply(s, step).quit
    ensures Left(Apply(s, step)) + (if LoopStep(step) && Enabled(s, step) then 1 else 0)
            <= Left(s) + if step.Push? then 1 else 0
  {
  }

  /** Every step the loop thread takes after a quit brings it closer to leaving loop(): it takes
      at most as many as counted at the quit plus one for each task pushed since. */
  lemma {:induction false} QuitLeavesTheLoop(s: State, steps: seq<Step>)
    requires s.quit && forall i :: 0 <= i < |steps| ==> !steps[i].Enter?
    ensures Run(s, steps).quit
    ensures LoopSteps(s, steps) + Left(Run(s, steps)) <= Left(s) + Pushes(steps)
  {
    if steps != [] {
      QuitLeavesTheLoop(s, steps[..|steps| - 1]);
      LeftFalls(Run(s, steps[..|steps| - 1]), steps[|steps| - 1]);
    }
  }

  // ---- Progress without help ----------------------------------------------------------------

  lemma RunSnoc(s: State, steps: seq<Step>, step: Step)
    ensures Run(s, steps + [step]) == Apply(Run(s, steps), step)
  {
    assert (steps + [step])[..|steps|] == steps;
  }

  lemma {:induction false} RunAppend(s: State, a: seq<Step>, b: seq<Step>)
    ensures Run(s, a + b) == Run(Run(s, a), b)
    decreases |b|
  {
    if b == [] {
      assert a + b == a;
    } else {
      assert (a + b)[..|a + b| - 1] == a + b[..|b| - 1];
      RunAppend(s, a, b[..|b| - 1]);
    }
  }

  lemma RunCons(s: State, step: Step, rest: seq<Step>)
    ensures Run(s, [step] + rest) == Run(Apply(s, step), rest)
  {
    RunAppend(s, [step], rest);
    assert [] + [step] == [step];
    RunSnoc(s, [], step);
  }

  /** A step that needs nothing from outside: an eventfd write a caller already owes, or a step of
      the loop thread, with poll(2) returning for the eventfd alone. */
  predicate Own(step: Step) {
    step.Wake? || (LoopStep(step) && (step.PollReturn? ==> !step.failed && !step.other))
  }

  ghost predicate AllOwn(steps: seq<Step>) {
    forall i :: 0 <= i < |steps| ==> Own(steps[i])
  }

  ghost function NextOwn(s: State): (step: Step)
    requires Inv(s) && s.pc != Outside && (s.quit || s.queue != [] || s.batch != [])
    ensures Own(step) && Enabled(s, step)
  {
    match s.pc
    case Testing => Test
    case BeforePoll => BeginPoll
    case Polling =>
      if 0 < s.counter then PollReturn(false, false)
      else
        assert Waking(s, if s.quit then QuitSet else Pushed);
        var t :| t in s.callers;
        Wake(t)
    case Handling(wake) => if wake then ReadEventfd else FinishHandlers
    case Swapping => Swap
    case Running => if s.batch == [] then FinishBatch else RunOne
  }

  lemma OwnKeeps(s: State, step: Step)
    requires Inv(s) && Own(step) && Enabled(s, step)
    ensures Inv(Apply(s, step)) && Apply(s, step).quit == s.quit
    ensures var d := Apply(s, step); d.ran + d.batch + d.queue == s.ran + s.batch + s.queue
  {
    if step.Wake? { CallerStepKeeps(s, step); } else { LoopStepKeeps(s, step); }
  }

  /** One more step is needed while nobody has written the eventfd the loop will wait for. */
  function WakeDue(s: State): nat {
    if s.counter == 0 && (s.pc == BeforePoll || s.pc == Polling) then 1 else 0
  }

  function TaskWakeDue(s: State): nat {
    if s.counter == 0 && s.queue != [] && (s.pc == Testing || s.pc == BeforePoll || s.pc == Polling || s.pc == Running)
    then 1 else 0
  }

  /** After a quit the loop thread leaves loop() by its own steps and those its callers owe. */
  lemma {:induction false} QuitGetsThrough(s: State) returns (more: seq<Step>)
    requires Inv(s) && s.quit
    ensures AllOwn(more) && |more| <= Left(s) + WakeDue(s) && Run(s, more).pc == Outside
    decreases Left(s) + WakeDue(s)
  {
    if s.pc == Outside {
      more := [];
    } else {
      var step := NextOwn(s);
      var d := Apply(s, step);
      OwnKeeps(s, step);
      LeftFalls(s, step);
      var rest := QuitGetsThrough(d);
      RunCons(s, step, rest);
      more := [step] + rest;
    }
  }

  /** How many steps until every task pushed so far has run. */
  function Need(s: State): nat {
    if s.queue == [] then |s.batch|
    else
      match s.pc
      case Outside => 0
      case Swapping => 1 + |s.queue|
      case Handling(wake) => (if wake then 3 else 2) + |s.queue|
      case Polling => 4 + |s.queue|
      case BeforePoll => 5 + |s.queue|
      case Testing => 6 + |s.queue|
      case Running => 7 + |s.batch| + |s.queue|
  }

  /** The loop will not get to the queue again before loop() is entered anew. */
  predicate Leaving(s: State) {
    s.pc == Outside || (s.quit && (s.pc == Testing || s.pc == Running))
  }

  lemma NeedFalls(s: State)
    requires Inv(s) && (s.queue != [] || s.batch != []) && (s.queue != [] ==> !Leaving(s)) && s.pc != Outside
    ensures var d := Apply(s, NextOwn(s));
            && Need(d) + TaskWakeDue(d) < Need(s) + TaskWakeDue(s)
            && (d.queue != [] ==> !Leaving(d)) && (d.queue != [] || d.batch != [] ==> d.pc != Outside)
  {
  }

  lemma {:induction false} TasksGetThrough(s: State) returns (more: seq<Step>)
    requires Inv(s) && (s.queue != [] ==> !Leaving(s))
    ensures AllOwn(more) && |more| <= Need(s) + TaskWakeDue(s)
    ensures Run(s, more).ran == s.ran + s.batch + s.queue
    decreases Need(s) + TaskWakeDue(s)
  {
    if s.queue == [] && s.batch == [] {
      more := [];
    } else {
      var step := NextOwn(s);
      var d := Apply(s, step);
      OwnKeeps(s, step);
      NeedFalls(s);
      var rest := TasksGetThrough(d);
      RunCons(s, step, rest);
      more := [step] + rest;
    }
  }

  /** No request waits for an outside event. From every reachable state: if a quit is outstanding,
      a bounded continuation of the loop thread's own steps and of eventfd writes already owed
      leaves loop(); and if loop() is not being left, such a continuation runs every task pushed
      so far, in order. */
  lemma RequestsGetThrough(steps: seq<Step>)
    ensures var s := Run(Start(), steps);
            && (s.quit ==>
                  exists more :: AllOwn(more) && |more| <= Left(s) + 1 && Run(s, more).pc == Outside)
            && (!Leaving(s) ==>
                  exists more :: AllOwn(more) && |more| <= Need(s) + 1 && Run(s, more).ran == s.pushed)
  {
    InvHolds(Start(), steps);
    var s := Run(Start(), steps);
    if s.quit { var more := QuitGetsThrough(s); }
    if !Leaving(s) { var more := TasksGetThrough(s); }
  }

  /** Once loop() is being left the queued tasks stay where they are, whatever anyone does, until
      it is entered again. */
  lemma {:induction false} LeavingStrandsTheQueue(s: State, steps: seq<Step>)
    requires Leaving(s) && forall i :: 0 <= i < |steps| ==> !steps[i].Enter?
    ensures Leaving(Run(s, steps)) && s.queue <= Run(s, steps).queue
  {
    if steps != [] { LeavingStrandsTheQueue(s, steps[..|steps| - 1]); }
  }

  /** The shortest such run: a task is pushed after a quit, before the loop tests it. */
  lemma StrandedTask(job: nat)
    ensures var s := Run(Start(), [Enter, SetQuit(0), Push(1, job), Test]);
            Leaving(s) && s.queue == [Task(1, job)] && s.ran == []
  {
    var steps := [Enter, SetQuit(0), Push(1, job), Test];
    assert steps[..3] == [Enter, SetQuit(0), Push(1, job)] && steps[..3][..2] == [Enter, SetQuit(0)];
    assert [Enter, SetQuit(0)][..1] == [Enter] && [Enter][..0] == [];
    assert Run(Start(), [Enter]) == Apply(Start(), Enter);
    assert Run(Start(), [Enter, SetQuit(0)]) == Apply(Apply(Start(), Enter), SetQuit(0));
    assert Run(Start(), steps[..3]) == Apply(Apply(Apply(Start(), Enter), SetQuit(0)), Push(1, job));
  }

  // ---- Which tasks are sure to run ----------------------------------------------------------

  /** Past the test of the flag and before the swap. */
  predicate Committed(s: State) {
    s.pc == BeforePoll || s.pc == Polling || s.pc.Handling? || s.pc == Swapping
  }

  /** How many loop steps there are before the first `n` tasks have run. */
  function StepsUntil(s: State, n: nat): nat {
    if n <= |s.ran| then 0
    else
      n - |s.ran| +
      match s.pc
      case BeforePoll => 5
      case Polling => 4
      case Handling(wake) => if wake then 3 else 2
      case Swapping => 1
      case _ => 0
  }

  /** Nothing can come between the loop and the first `n` tasks. */
  predicate Aims(s: State, n: nat) {
    n <= |s.ran| || (Committed(s) && n <= |s.pushed|) || (s.pc == Running && n <= |s.ran| + |s.batch|)
  }

  lemma AimKept(s: State, step: Step, n: nat)
    requires Inv(s) && Aims(s, n)
    ensures var d := Apply(s, step);
            && Aims(d, n)
            && (n <= |d.ran| ||
                StepsUntil(d, n) + (if LoopStep(step) && Enabled(s, step) then 1 else 0) <= StepsUntil(s, n))
            && s.pushed <= d.pushed
  {
    assert |s.ran| + |s.batch| + |s.queue| == |s.pushed|;
  }

  lemma {:induction false} AimHits(s: State, more: seq<Step>, n: nat)
    requires Inv(s) && Aims(s, n)
    ensures var d := Run(s, more);
            && Inv(d) && Aims(d, n) && s.pushed <= d.pushed
            && (n <= |d.ran| || LoopSteps(s, more) + StepsUntil(d, n) <= StepsUntil(s, n))
    decreases |more|
  {
    if more != [] {
      var before, last := more[..|more| - 1], more[|more| - 1];
      AimHits(s, before, n);
      InvHolds(s, more);
      AimKept(Run(s, before), last, n);
      hide Inv;
      hide Aims;
    }
  }

  /** In a continuation that leaves loop(), or in which the loop takes enough steps, every task
      pushed so far has run, in order. */
  ghost predicate Served(s: State, more: seq<Step>) {
    Run(s, more).pc == Outside || LoopSteps(s, more) >= 5 + |s.queue| + |s.batch| ==>
      s.pushed <= Run(s, more).ran
  }

  lemma CommittedIsServed(s: State, more: seq<Step>)
    requires Inv(s) && (Committed(s) || s.queue == [])
    ensures Served(s, more)
  {
    var n := |s.pushed|;
    assert |s.ran| + |s.batch| + |s.queue| == n;
    AimHits(s, more, n);
    var d := Run(s, more);
    if n <= |d.ran| {
      assert d.pushed == d.ran + (d.batch + d.queue);
      assert s.pushed == d.pushed[..n] == d.ran[..n];
    }
  }

  lemma {:induction false} SomeThread(busy: set<Thread>) returns (t: Thread)
    ensures forall u :: u in busy ==> u < t
  {
    if busy == {} {
      t := 0;
    } else {
      var u :| u in busy;
      var rest := SomeThread(busy - {u});
      t := if u < rest then rest else u + 1;
      forall v | v in busy ensures v < t {
        assert v == u || v in busy - {u};
      }
    }
  }

  /** With the flag set the loop runs its batch, tests and leaves. */
  lemma {:induction false} RunsBatchAndLeaves(s: State) returns (more: seq<Step>)
    requires s.quit && (s.pc == Running || s.pc == Testing) && (s.pc == Testing ==> s.batch == [])
    ensures var d := Run(s, more); d.pc == Outside && d.queue == s.queue && d.ran == s.ran + s.batch
    decreases |s.batch|, s.pc == Running
  {
    var step := if s.pc == Testing then Test else if s.batch == [] then FinishBatch else RunOne;
    var d := Apply(s, step);
    var rest := [];
    if s.pc == Running { rest := RunsBatchAndLeaves(d); }
    RunCons(s, step, rest);
    more := [step] + rest;
  }

  /** A handler or a task may call quit(), which sets the flag and wakes the loop up. */
  lemma LoopThreadMayQuit(s: State)
    requires s.pc.Handling? || s.pc == Running
    ensures Enabled(s, LoopQuit) && Apply(s, LoopQuit).quit && 0 < Apply(s, LoopQuit).counter
    ensures Apply(s, LoopQuit).pc == s.pc
  {
  }

  /** A task that calls quit() has set the flag, and once the rest of its batch has run the loop
      tests it and leaves. */
  lemma TaskQuitLeaves(s: State) returns (more: seq<Step>)
    requires s.pc == Running
    ensures Enabled(s, LoopQuit) && Apply(s, LoopQuit).quit
    ensures var d := Run(Apply(s, LoopQuit), more); d.pc == Outside && d.ran == s.ran + s.batch
  {
    more := RunsBatchAndLeaves(Apply(s, LoopQuit));
  }

  /** Another thread's quit, coming now, leaves the queue behind. */
  lemma QuitStrands(s: State) returns (more: seq<Step>)
    requires Inv(s) && !Committed(s)
    ensures var d := Run(s, more); d.pc == Outside && d.queue == s.queue && d.ran == s.ran + s.batch
    ensures s.queue != [] ==> !Served(s, more)
  {
    assert |s.ran| + |s.batch| + |s.queue| == |s.pushed|;
    if s.pc == Outside {
      more := [];
    } else {
      var t := SomeThread(s.callers.Keys);
      assert t !in s.callers;
      var d := Apply(s, SetQuit(t));
      var rest := RunsBatchAndLeaves(d);
      RunCons(s, SetQuit(t), rest);
      more := [SetQuit(t)] + rest;
    }
  }

  /** In every reachable state: all continuations, whoever quits in them and when, serve the tasks
      pushed so far exactly when none is still queued, or the loop is past its test of the flag
      and has not swapped yet. */
  lemma QueueIsServedExactlyWhen(steps: seq<Step>)
    ensures var s := Run(Start(), steps);
            (forall more :: Served(s, more)) <==> Committed(s) || s.queue == []
  {
    InvHolds(Start(), steps);
    var s := Run(Start(), steps);
    hide Inv;
    hide Run;
    if Committed(s) || s.queue == [] {
      forall more ensures Served(s, more) { CommittedIsServed(s, more); }
    } else {
      var more := QuitStrands(s);
    }
  }

  // ---- The loop object ----------------------------------------------------------------------

  predicate CallerSteps(steps: seq<Step>) {
    forall i :: 0 <= i < |steps| ==> steps[i].Push? || steps[i].SetQuit? || steps[i].Wake?
  }

  /** The same, and quits by the task that is running. */
  predicate TaskSteps(steps: seq<Step>) {
    forall i :: 0 <= i < |steps| ==>
      steps[i].Push? || steps[i].SetQuit? || steps[i].Wake? || steps[i].LoopQuit?
  }

  /** What happens around one pass of loop(): the steps of other threads before and during
      poll(2) and while handlers run, how poll(2) returns, whether a handler quits, and the steps
      of other threads before each task. */
  datatype Pass = Pass(
    before: seq<Step>, during: seq<Step>, failed: bool, other: bool,
    handling: seq<Step>, quits: bool, works: seq<seq<Step>>)

  predicate PassOk(p: Pass) {
    && CallerSteps(p.before) && CallerSteps(p.during) && CallerSteps(p.handling)
    && forall i :: 0 <= i < |p.works| ==> TaskSteps(p.works[i])
  }

  // The steps of a pass in order.

  function Into(p: Pass): seq<Step> { [Test] + p.before + [BeginPoll] + p.during }

  function Handled(p: Pass, readable: bool): seq<Step> {
    [PollReturn(p.failed, p.other)] + p.handling + (if readable then [ReadEventfd] else [])
    + (if p.quits then [LoopQuit] else []) + [FinishHandlers]
  }

  function Works(n: nat, others: seq<seq<Step>>): seq<Step>
    decreases n
  {
    if n == 0 then []
    else if others == [] then [RunOne] + Works(n - 1, [])
    else others[0] + [RunOne] + Works(n - 1, others[1..])
  }

  function Batch(n: nat, others: seq<seq<Step>>): seq<Step> { [Swap] + Works(n, others) + [FinishBatch] }

  /** poll(2) does not return in this pass. */
  predicate Blocks(s: State, p: Pass) { !p.failed && !p.other && Run(s, Into(p)).counter == 0 }

  function PassSteps(s: State, p: Pass): seq<Step> {
    if Blocks(s, p) then Into(p)
    else
      var early := Into(p) + Handled(p, !p.failed && 0 < Run(s, Into(p)).counter);
      early + Batch(|Run(s, early).queue|, p.works)
  }

  /** The passes of loop() from its condition on, until it is left or blocks or none is left. */
  function LoopTrace(s: State, passes: seq<Pass>): seq<Step>
    decreases |passes|
  {
    if s.quit then [Test]
    else if passes == [] then []
    else if Blocks(s, passes[0]) then PassSteps(s, passes[0])
    else PassSteps(s, passes[0]) + LoopTrace(Run(s, PassSteps(s, passes[0])), passes[1..])
  }

  lemma PassWorks(p: Pass)
    requires PassOk(p)
    ensures forall i :: 0 <= i < |p.works| ==> TaskSteps(p.works[i])
  {
  }

  lemma PassSplits(s: State, p: Pass)
    ensures var into := Run(s, Into(p));
            && (Blocks(s, p) <==> !(p.failed || p.other || 0 < into.counter))
            && PassSteps(s, p) ==
                 if Blocks(s, p) then Into(p)
                 else
                   var early := Into(p) + Handled(p, !p.failed && 0 < into.counter);
                   early + Batch(|Run(s, early).queue|, p.works)
  {
  }

  lemma LoopTraceNext(s: State, passes: seq<Pass>, i: nat)
    requires i < |passes| && !s.quit
    ensures LoopTrace(s, passes[i..]) ==
              if Blocks(s, passes[i]) then PassSteps(s, passes[i])
              else PassSteps(s, passes[i]) + LoopTrace(Run(s, PassSteps(s, passes[i])), passes[i + 1..])
  {
    assert passes[i..][0] == passes[i] && passes[i..][1..] == passes[i + 1..];
  }

  lemma LoopTraceEnd(s: State, passes: seq<Pass>, i: nat)
    requires i <= |passes| && (s.quit || i == |passes|)
    ensures LoopTrace(s, passes[i..]) == if s.quit then [Test] else []
  {
  }

  lemma Join(a: seq<Step>, b: seq<Step>, c: seq<Step>)
    ensures a + (b + c) == a + b + c && a + [] == a
  {
  }

  lemma WorksNone(others: seq<seq<Step>>)
    ensures Works(0, others) == []
  {
  }

  lemma WorksNext(trace: seq<Step>, n: nat, others: seq<seq<Step>>, i: nat)
    requires n > 0 && i <= |others|
    ensures var mine := if i < |others| then others[i] else [];
            var next := if i < |others| then i + 1 else i;
            trace + Works(n, others[i..]) == (trace + mine + [RunOne]) + Works(n - 1, others[next..])
  {
    var mine := if i < |others| then others[i] else [];
    var rest := Works(n - 1, others[if i < |others| then i + 1 else i..]);
    if i < |others| {
      assert others[i..][0] == mine && others[i..][1..] == others[i + 1..];
      assert Works(n, others[i..]) == mine + [RunOne] + rest;
    } else {
      assert Works(n, others[i..]) == [RunOne] + rest && [] + [RunOne] == [RunOne];
    }
    hide Works;
    Join(trace, mine, [RunOne]);
    Join(trace, mine + [RunOne], rest);
  }

  class EventLoop {
    var pc: Pc
    var quit: bool
    var eventfd: nat
    var callers: map<Thread, Caller>
    var functors: seq<Task>
    var works: seq<Task>
    ghost var pushed: seq<Task>
    var ran: seq<Task>
    ghost var pollsAfterQuit: nat

    ghost function View(): State
      reads this
    {
      State(pc, quit, eventfd, callers, functors, works, pushed, ran, pollsAfterQuit)
    }

    constructor ()
      ensures View() == Start()
    {
      pc, quit, eventfd, callers := Outside, false, 0, map[];
      functors, works, pushed, ran, pollsAfterQuit := [], [], [], [], 0;
    }

    /** The locked region of `RunInLoop` on a thread that is not the loop's. */
    method PushFunctor(t: Thread, job: nat)
      requires t !in callers
      modifies this`functors, this`pushed, this`callers
      ensures View() == Apply(old(View()), Push(t, job))
    {
      functors := functors + [Task(t, job)];
      pushed := pushed + [Task(t, job)];
      callers := callers[t := Pushed];
    }

    method Quit(t: Thread)
      requires t !in callers
      modifies this`quit, this`callers
      ensures View() == Apply(old(View()), SetQuit(t)) && quit
    {
      quit := true;
      callers := callers[t := QuitSet];
    }

    method Wakeup(t: Thread)
      requires t in callers
      modifies this`eventfd, this`callers
      ensures View() == Apply(old(View()), Wake(t)) && 0 < eventfd
    {
      eventfd := if eventfd == EVENTFD_MAX then eventfd else eventfd + 1;
      callers := callers - {t};
    }

    /** What other threads, or the task that is running, do at one point of the loop's code. */
    method Interfere(others: seq<Step>, ghost s: State, ghost trace: seq<Step>)
      requires View() == Run(s, trace)
      requires CallerSteps(others) || (TaskSteps(others) && pc == Running)
      modifies this`quit, this`eventfd, this`callers, this`functors, this`pushed
      ensures View() == Run(s, trace + others) && (old(quit) ==> quit)
    {
      assert trace + others[..0] == trace;
      for i := 0 to |others|
        invariant old(quit) ==> quit
        invariant View() == Run(s, trace + others[..i])
      {
        RunSnoc(s, trace + others[..i], others[i]);
        assert trace + others[..i + 1] == trace + others[..i] + [others[i]];
        match others[i] {
          case Push(t, job) => if t !in callers { PushFunctor(t, job); }
          case SetQuit(t) => if t !in callers { Quit(t); }
          case Wake(t) => if t in callers { Wakeup(t); }
          case LoopQuit => QuitFromLoop();
        }
      }
      assert others[..|others|] == others;
    }

    method SwapFunctors()
      requires pc == Swapping
      modifies this`works, this`functors, this`pc
      ensures View() == Run(old(View()), [Swap]) && pc == Running
      ensures works == old(functors) && functors == []
    {
      RunSnoc(View(), [], Swap);
      works, functors, pc := functors, [], Running;
    }

    method RunNext(ghost s: State, ghost trace: seq<Step>)
      requires pc == Running && works != [] && View() == Run(s, trace)
      modifies this`ran, this`works
      ensures View() == Run(s, trace + [RunOne])
      ensures ran == old(ran) + [old(works)[0]] && works == old(works)[1..]
    {
      RunSnoc(s, trace, RunOne);
      ran, works := ran + [works[0]], works[1..];
    }

    method LeaveBatch(ghost s: State, ghost trace: seq<Step>)
      requires pc == Running && works == [] && Inv(s) && View() == Run(s, trace)
      modifies this`pc
      ensures pc == Testing && View() == Run(s, trace + [FinishBatch]) && Inv(View())
    {
      RunSnoc(s, trace, FinishBatch);
      pc := Testing;
      InvHolds(s, trace + [FinishBatch]);
    }

    /** In the middle of a batch, before the other threads' i-th turn; `all` are its steps. */
    ghost predicate AtTask(others: seq<seq<Step>>, i: nat, s: State, trace: seq<Step>, all: seq<Step>)
      reads this
    {
      i <= |others| && pc == Running && View() == Run(s, trace) && trace + Works(|works|, others[i..]) == all
    }

    method NextTask(others: seq<seq<Step>>, i: nat, ghost s: State, ghost trace: seq<Step>, ghost all: seq<Step>)
      returns (i': nat, ghost trace': seq<Step>)
      requires works != [] && AtTask(others, i, s, trace, all)
      requires forall j :: 0 <= j < |others| ==> TaskSteps(others[j])
      modifies this
      ensures AtTask(others, i', s, trace', all)
      ensures ran == old(ran) + [old(works)[0]] && works == old(works)[1..] && (old(quit) ==> quit)
    {
      hide Apply;
      hide Run;
      hide Works;
      i', trace' := i, trace;
      WorksNext(trace, |works|, others, i);
      if i < |others| {
        Interfere(others[i], s, trace);
        trace' := trace + others[i];
        i' := i + 1;
      }
      Join(trace', [], []);
      RunNext(s, trace');
      trace' := trace' + [RunOne];
    }

    /** Swaps the queue out under the lock and runs what it held, while other threads go on
        pushing, quitting and waking. Exactly the tasks queued at the swap run, in order. */
    method DoPendingFunctors(others: seq<seq<Step>>) returns (ghost trace: seq<Step>)
      requires pc == Swapping && Inv(View())
      requires forall i :: 0 <= i < |others| ==> TaskSteps(others[i])
      modifies this
      ensures View() == Run(old(View()), trace) && Inv(View())
      ensures pc == Testing && ran == old(ran) + old(functors) && (old(quit) ==> quit)
      ensures trace == Batch(|old(functors)|, others)
    {
      ghost var s := View();
      hide Inv;
      hide Apply;
      hide Run;
      hide Works;
      SwapFunctors();
      trace := [Swap];
      ghost var all := [Swap] + Works(|works|, others);
      var i: nat := 0;
      assert others[0..] == others;
      while works != []
        invariant AtTask(others, i, s, trace, all)
        invariant ran + works == old(ran) + old(functors) && (old(quit) ==> quit)
        decreases |works|
      {
        assert ran + works == ran + [works[0]] + works[1..];
        i, trace := NextTask(others, i, s, trace, all);
      }
      WorksNone(others[i..]);
      Join(trace, [], []);
      LeaveBatch(s, trace);
      trace := trace + [FinishBatch];
    }

    method EnterLoop()
      requires pc == Outside
      modifies this`pc, this`quit, this`pollsAfterQuit
      ensures View() == Apply(old(View()), Enter)
      ensures pc == Testing && !quit
    {
      pc, quit, pollsAfterQuit := Testing, false, 0;
    }

    /** The loop condition. */
    method TestQuit()
      requires pc == Testing
      modifies this`pc
      ensures View() == Apply(old(View()), Test)
      ensures pc == if quit then Outside else BeforePoll
    {
      pc := if quit then Outside else BeforePoll;
    }

    method CallPoll()
      requires pc == BeforePoll
      modifies this`pc, this`pollsAfterQuit
      ensures View() == Apply(old(View()), BeginPoll)
      ensures pc == Polling
    {
      pc := Polling;
      pollsAfterQuit := pollsAfterQuit + if quit then 1 else 0;
    }

    method PollReturns(failed: bool, other: bool)
      requires pc == Polling && (failed || other || 0 < eventfd)
      modifies this`pc
      ensures View() == Apply(old(View()), PollReturn(failed, other))
      ensures pc == Handling(!failed && 0 < eventfd)
    {
      pc := Handling(!failed && 0 < eventfd);
    }

    /** The eventfd's read handler. */
    method HandleRead()
      requires pc == Handling(true)
      modifies this`pc, this`eventfd
      ensures View() == Apply(old(View()), ReadEventfd)
      ensures pc == Handling(false) && eventfd == 0
    {
      eventfd := 0;
      pc := Handling(false);
    }

    /** quit() called on the loop thread. */
    method QuitFromLoop()
      requires pc.Handling? || pc == Running
      modifies this`quit, this`eventfd
      ensures View() == Apply(old(View()), LoopQuit) && quit && 0 < eventfd
    {
      quit := true;
      eventfd := if eventfd == EVENTFD_MAX then eventfd else eventfd + 1;
    }

    method HandlersDone()
      requires pc == Handling(false)
      modifies this`pc
      ensures View() == Apply(old(View()), FinishHandlers)
      ensures pc == Swapping
    {
      pc := Swapping;
    }

    /** From the loop condition into poll(2). */
    method EnterPoll(p: Pass, ghost s: State, ghost trace: seq<Step>) returns (ghost trace': seq<Step>)
      requires pc == Testing && !quit && View() == Run(s, trace) && PassOk(p)
      modifies this
      ensures pc == Polling && View() == Run(s, trace') && trace' == trace + Into(p)
    {
      hide Apply;
      hide Run;
      TestQuit();
      RunSnoc(s, trace, Test);
      trace' := trace + [Test];
      Interfere(p.before, s, trace');
      trace' := trace' + p.before;
      RunSnoc(s, trace', BeginPoll);
      CallPoll();
      trace' := trace' + [BeginPoll];
      Interfere(p.during, s, trace');
      trace' := trace' + p.during;
    }

    /** From the return of poll(2) to the pending functors. */
    method Handle(p: Pass, ghost s: State, ghost trace: seq<Step>) returns (ghost trace': seq<Step>)
      requires pc == Polling && (p.failed || p.other || 0 < eventfd) && View() == Run(s, trace) && PassOk(p)
      modifies this
      ensures pc == Swapping && View() == Run(s, trace') && (p.quits ==> quit)
      ensures trace' == trace + Handled(p, !p.failed && 0 < old(eventfd))
    {
      hide Apply;
      hide Run;
      RunSnoc(s, trace, PollReturn(p.failed, p.other));
      PollReturns(p.failed, p.other);
      trace' := trace + [PollReturn(p.failed, p.other)];
      Interfere(p.handling, s, trace');
      trace' := trace' + p.handling;
      if pc == Handling(true) {
        RunSnoc(s, trace', ReadEventfd);
        HandleRead();
        trace' := trace' + [ReadEventfd];
      }
      if p.quits {
        RunSnoc(s, trace', LoopQuit);
        QuitFromLoop();
        trace' := trace' + [LoopQuit];
      }
      RunSnoc(s, trace', FinishHandlers);
      HandlersDone();
      trace' := trace' + [FinishHandlers];
    }

    /** One pass of loop(), from the condition back to it; `blocked` where poll(2) does not
        return. */
    method OnePass(p: Pass, ghost s: State, ghost trace: seq<Step>) returns (blocked: bool, ghost trace': seq<Step>)
      requires pc == Testing && !quit && Inv(s) && View() == Run(s, trace) && PassOk(p)
      modifies this
      ensures View() == Run(s, trace') && trace' == trace + PassSteps(old(View()), p)
      ensures blocked == Blocks(old(View()), p)
      ensures if blocked then pc == Polling else pc == Testing && (p.quits ==> quit)
    {
      ghost var start := View();
      hide Apply;
      hide Run;
      hide Inv;
      hide Into;
      hide Handled;
      hide Batch;
      hide PassSteps;
      hide Blocks;
      hide PassOk;
      trace' := EnterPoll(p, s, trace);
      RunAppend(s, trace, Into(p));
      blocked := !(p.failed || p.other || 0 < eventfd);
      PassSplits(start, p);
      ghost var readable := !p.failed && 0 < eventfd;
      if blocked {
        return;
      }
      trace' := Handle(p, s, trace');
      ghost var early := Into(p) + Handled(p, readable);
      assert trace' == trace + early;
      RunAppend(s, trace, early);
      InvHolds(s, trace');
      PassWorks(p);
      ghost var more := DoPendingFunctors(p.works);
      RunAppend(s, trace', more);
      trace' := trace' + more;
    }

    /** At the loop condition before the i-th pass; `all` are the steps of the whole loop. */
    ghost predicate AtPass(passes: seq<Pass>, i: nat, s: State, trace: seq<Step>, all: seq<Step>)
      reads this
    {
      && i <= |passes| && pc == Testing && View() == Run(s, trace)
      && trace + LoopTrace(View(), passes[i..]) == all
      && (!quit ==> forall j :: 0 <= j < i ==> !passes[j].quits)
    }

    method NextPass(passes: seq<Pass>, i: nat, ghost s: State, ghost trace: seq<Step>, ghost all: seq<Step>)
      returns (blocked: bool, ghost trace': seq<Step>)
      requires i < |passes| && !quit && PassOk(passes[i]) && Inv(s) && AtPass(passes, i, s, trace, all)
      modifies this
      ensures if blocked then pc == Polling && View() == Run(s, trace') && trace' == all
              else AtPass(passes, i + 1, s, trace', all)
    {
      hide Inv;
      hide Apply;
      hide Run;
      hide PassOk;
      hide PassSteps;
      hide Blocks;
      hide LoopTrace;
      ghost var was := View();
      ghost var steps := PassSteps(was, passes[i]);
      LoopTraceNext(was, passes, i);
      blocked, trace' := OnePass(passes[i], s, trace);
      if !blocked {
        RunAppend(s, trace, steps);
        Join(trace, steps, LoopTrace(View(), passes[i + 1..]));
      }
    }

    /** loop(), over as many passes as are described: it ends outside exactly when it saw a quit,
        or is still blocked in poll(2), or is about to test its condition again; after a pass in
        which a handler quits, it does not go on. Whatever other threads do, it is an
        interleaving, so every result about those holds of it. */
    method Loop(passes: seq<Pass>) returns (ghost trace: seq<Step>)
      requires pc == Outside && Inv(View())
      requires forall i :: 0 <= i < |passes| ==> PassOk(passes[i])
      modifies this
      ensures View() == Run(old(View()), trace) && Inv(View())
      ensures (pc == Outside && quit) || pc == Polling || (pc == Testing && !quit)
      ensures pc == Testing ==> forall i :: 0 <= i < |passes| ==> !passes[i].quits
      ensures trace == [Enter] + LoopTrace(Apply(old(View()), Enter), passes)
    {
      ghost var s := View();
      assert Run(s, []) == s && [] + [Enter] == [Enter];
      hide Inv;
      hide Apply;
      hide Run;
      hide PassOk;
      hide LoopTrace;
      RunSnoc(s, [], Enter);
      EnterLoop();
      trace := [Enter];
      ghost var all := [Enter] + LoopTrace(View(), passes);
      var i := 0;
      assert passes[0..] == passes;
      while i < |passes| && !quit
        invariant AtPass(passes, i, s, trace, all)
        decreases |passes| - i
      {
        var blocked;
        blocked, trace := NextPass(passes, i, s, trace, all);
        if blocked {
          InvHolds(s, trace);
          return;
        }
        i := i + 1;
      }
      LoopTraceEnd(View(), passes, i);
      Join(trace, [], []);
      if quit {
        RunSnoc(s, trace, Test);
        TestQuit();
        trace := trace + [Test];
      }
      InvHolds(s, trace);
    }
  }
}
