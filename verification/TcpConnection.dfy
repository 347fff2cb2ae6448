/** The send and half-close path of a connection (net/tcp_connection.cc).

    A message is written directly, buffered, or drained later by the write event; the half-close
    waits for the buffer to drain. The loop thread runs `RunInLoop` arguments at once, so a
    write-complete callback re-enters `Send` and `Shutdown` in the middle of an operation.

    `Script` is the finite tree of what such a callback does, together with what the kernel
    answers and what other threads do meanwhile. Other threads only append to the task queue and
    advance the connection state, and the state is read only when `Shutdown` is called and after
    a write-complete callback, so their steps are placed inside scripts. */
module TcpConnections {
  import opened Bytes
  import opened Buffers

  datatype Phase = Connecting | Connected | Disconnecting | Disconnected

  /** What write(2) says: -1 with EWOULDBLOCK, -1 with another error, or a byte count. */
  datatype Answer = WouldBlock | HardError | Wrote(n: nat)

  datatype Task = SendTask(msg: string) | ShutdownTask

  datatype Script =
    | End
    | Send(msg: string, answer: Answer, onComplete: Script, rest: Script)
    | Shutdown(rest: Script)
    | RemoteSend(msg: string, rest: Script)
    | RemoteShutdown(rest: Script)

  /** `buf` is the readable part of the send buffer, `writing` the channel's write interest,
      `sock` every byte the socket took, and `shuts` what `sock` was at each SHUT_WR. `sent`
      lists the messages in the order `sendInLoop` began, `kept` those among them that its
      hard-error return did not drop. */
  datatype Conn = Conn(
    phase: Phase, buf: string, writing: bool, tasks: seq<Task>,
    sock: string, shuts: seq<string>, sent: seq<string>, kept: seq<string>)

  // ---- One operation ------------------------------------------------------------------------

  /** A socket whose write side is shut refuses every write. */
  function Kernel(c: Conn, len: nat, answer: Answer): (a: Answer)
    ensures a.Wrote? ==> a.n <= len && c.shuts == []
  {
    if c.shuts != [] then HardError
    else if answer.Wrote? then Wrote(Min(answer.n, len))
    else answer
  }

  function Buffered(c: Conn, left: string): Conn {
    if left == "" then c else c.(buf := c.buf + left, writing := true)
  }

  /** What the first half of `sendInLoop` found: the message is dropped, or `n` bytes of it are
      on the socket and the direct write was or was not complete. */
  datatype Outcome = Dropped | Taken(n: nat, complete: bool)

  function WriteFirst(c: Conn, msg: string, answer: Answer): (r: (Conn, Outcome))
    ensures r.1.Taken? ==> r.1.n <= |msg| && (r.1.complete ==> r.1.n == |msg|)
  {
    var dropped := c.(sent := c.sent + [msg]);
    var taken := dropped.(kept := c.kept + [msg]);
    if c.writing || c.buf != "" then (taken, Taken(0, false))
    else
      match Kernel(c, |msg|, answer)
      case HardError => (dropped, Dropped)
      case WouldBlock => (taken, Taken(0, false))
      case Wrote(n) => (taken.(sock := c.sock + msg[..n]), Taken(n, n == |msg|))
  }

  /** `sendInLoop` up to the point where the write-complete callback runs, if it does. */
  function BeginSend(c: Conn, msg: string, answer: Answer): (r: (Conn, bool)) {
    var (c', outcome) := WriteFirst(c, msg, answer);
    if outcome.Dropped? then (c', false) else (Buffered(c', msg[outcome.n..]), outcome.complete)
  }

  function SendInLoop(c: Conn, msg: string, answer: Answer, onComplete: Script): Conn
    decreases onComplete, 1
  {
    var (c', fires) := BeginSend(c, msg, answer);
    if fires then Exec(c', onComplete) else c'
  }

  function ShutdownInLoop(c: Conn): Conn {
    if c.writing then c else c.(shuts := c.shuts + [c.sock])
  }

  function RequestShutdown(c: Conn): Conn {
    if c.phase == Connected then ShutdownInLoop(c.(phase := Disconnecting)) else c
  }

  function RequestRemoteShutdown(c: Conn): Conn {
    if c.phase == Connected then c.(phase := Disconnecting, tasks := c.tasks + [ShutdownTask]) else c
  }

  function Exec(c: Conn, script: Script): Conn
    decreases script, 0
  {
    match script
    case End => c
    case Send(msg, answer, onComplete, rest) => Exec(SendInLoop(c, msg, answer, onComplete), rest)
    case Shutdown(rest) => Exec(RequestShutdown(c), rest)
    case RemoteSend(msg, rest) => Exec(c.(tasks := c.tasks + [SendTask(msg)]), rest)
    case RemoteShutdown(rest) => Exec(RequestRemoteShutdown(c), rest)
  }

  /** `HandleWrite` up to the callback point. */
  function BeginDrain(c: Conn, answer: Answer): (r: (Conn, bool)) {
    if !c.writing then (c, false)
    else
      match Kernel(c, |c.buf|, answer)
      case HardError => (c, false)
      case WouldBlock => (c, false)
      case Wrote(n) =>
        if n == 0 then (c, false)
        else (c.(sock := c.sock + c.buf[..n], buf := c.buf[n..], writing := n < |c.buf|), n == |c.buf|)
  }

  function FinishDrain(c: Conn): Conn {
    if c.phase == Disconnecting then ShutdownInLoop(c) else c
  }

  function HandleWrite(c: Conn, answer: Answer, onComplete: Script): Conn {
    var (c', drained) := BeginDrain(c, answer);
    if drained then FinishDrain(Exec(c', onComplete)) else c'
  }

  // ---- Runs ---------------------------------------------------------------------------------

  /** What the loop thread does between two polls: the server establishes the connection, user
      code runs, a write event, a queued task. */
  datatype Op =
    | Establish(script: Script)
    | Call(script: Script)
    | Writable(answer: Answer, onComplete: Script)
    | RunTask(answer: Answer, onComplete: Script)

  function Step(c: Conn, op: Op): Conn {
    match op
    case Establish(script) => if c.phase == Connecting then Exec(c.(phase := Connected), script) else c
    case Call(script) => Exec(c, script)
    case Writable(answer, onComplete) => HandleWrite(c, answer, onComplete)
    case RunTask(answer, onComplete) =>
      if c.tasks == [] then c
      else
        var c' := c.(tasks := c.tasks[1..]);
        match c.tasks[0]
        case SendTask(msg) => SendInLoop(c', msg, answer, onComplete)
        case ShutdownTask => ShutdownInLoop(c')
  }

  function Run(c: Conn, ops: seq<Op>): Conn
    decreases |ops|
  {
    if ops == [] then c else Run(Step(c, ops[0]), ops[1..])
  }

  function Start(): Conn {
    Conn(Connecting, "", false, [], "", [], [], [])
  }

  /** Holds between operations and whenever user code runs inside one. */
  ghost predicate Inv(c: Conn) {
    && c.sock + c.buf == Flat(c.kept)
    && (c.writing <==> c.buf != "")
    && (c.shuts != [] ==> c.buf == "")
    && forall i :: 0 <= i < |c.shuts| ==> c.shuts[i] == c.sock
  }

  /** Between operations: a shutdown that was asked for has happened or has someone to do it. */
  ghost predicate Pending(c: Conn) {
    c.phase == Disconnecting ==> c.shuts != [] || c.writing || ShutdownTask in c.tasks
  }

  lemma BeginSendKeeps(c: Conn, msg: string, answer: Answer)
    requires Inv(c)
    ensures Inv(BeginSend(c, msg, answer).0)
    ensures Pending(c) ==> Pending(BeginSend(c, msg, answer).0)
  {
    FlatSnoc(c.kept, msg);
    var a := Kernel(c, |msg|, answer);
    if a.Wrote? { assert msg == msg[..a.n] + msg[a.n..]; }
  }

  lemma BeginDrainKeeps(c: Conn, answer: Answer)
    requires Inv(c)
    ensures Inv(BeginDrain(c, answer).0)
    ensures BeginDrain(c, answer).1 ==> BeginDrain(c, answer).0.buf == ""
    ensures !BeginDrain(c, answer).1 && Pending(c) ==> Pending(BeginDrain(c, answer).0)
  {
    var a := Kernel(c, |c.buf|, answer);
    if a.Wrote? { assert c.buf == c.buf[..a.n] + c.buf[a.n..]; }
  }

  lemma {:induction false} SendKeeps(c: Conn, msg: string, answer: Answer, onComplete: Script)
    requires Inv(c)
    ensures Inv(SendInLoop(c, msg, answer, onComplete))
    ensures Pending(c) ==> Pending(SendInLoop(c, msg, answer, onComplete))
    decreases onComplete, 1
  {
    BeginSendKeeps(c, msg, answer);
    ExecKeeps(BeginSend(c, msg, answer).0, onComplete);
  }

  lemma {:induction false} ExecKeeps(c: Conn, script: Script)
    requires Inv(c)
    ensures Inv(Exec(c, script))
    ensures Pending(c) ==> Pending(Exec(c, script))
    decreases script, 0
  {
    match script
    case End =>
    case Send(msg, answer, onComplete, rest) =>
      SendKeeps(c, msg, answer, onComplete);
      ExecKeeps(SendInLoop(c, msg, answer, onComplete), rest);
    case Shutdown(rest) => ExecKeeps(RequestShutdown(c), rest);
    case RemoteSend(msg, rest) => ExecKeeps(c.(tasks := c.tasks + [SendTask(msg)]), rest);
    case RemoteShutdown(rest) => ExecKeeps(RequestRemoteShutdown(c), rest);
  }

  lemma StepKeeps(c: Conn, op: Op)
    requires Inv(c) && Pending(c)
    ensures Inv(Step(c, op)) && Pending(Step(c, op))
  {
    match op
    case Establish(script) => if c.phase == Connecting { ExecKeeps(c.(phase := Connected), script); }
    case Call(script) => ExecKeeps(c, script);
    case Writable(answer, onComplete) =>
      BeginDrainKeeps(c, answer);
      ExecKeeps(BeginDrain(c, answer).0, onComplete);
    case RunTask(answer, onComplete) =>
      if c.tasks != [] {
        var c' := c.(tasks := c.tasks[1..]);
        assert c.tasks == [c.tasks[0]] + c'.tasks;
        if c.tasks[0].SendTask? { SendKeeps(c', c.tasks[0].msg, answer, onComplete); }
      }
  }

  /** Every run, for all kernel answers and all re-entrant callbacks: the socket followed by the
      send buffer is the concatenation of the messages not dropped; write interest is on exactly
      while bytes are buffered; the write side was shut only with an empty buffer and with all
      those bytes on the socket, and none went out later; and a requested half-close is done or
      still has someone to do it. */
  lemma {:induction false} StreamIsKept(c: Conn, ops: seq<Op>)
    requires Inv(c) && Pending(c)
    ensures Inv(Run(c, ops)) && Pending(Run(c, ops))
    decreases |ops|
  {
    if ops != [] {
      StepKeeps(c, ops[0]);
      StreamIsKept(Step(c, ops[0]), ops[1..]);
    }
  }

  lemma StreamIsKeptFromStart(ops: seq<Op>)
    ensures Inv(Run(Start(), ops)) && Pending(Run(Start(), ops))
  {
    StreamIsKept(Start(), ops);
  }

  // ---- Every callback point -----------------------------------------------------------------

  /** The states user code sees while a script runs: at the start of each callback and between
      the calls it makes. */
  ghost function Points(c: Conn, script: Script): set<Conn>
    decreases script, 0
  {
    {c} + match script
          case End => {}
          case Send(msg, answer, onComplete, rest) =>
            SendPoints(c, msg, answer, onComplete) + Points(SendInLoop(c, msg, answer, onComplete), rest)
          case Shutdown(rest) => Points(RequestShutdown(c), rest)
          case RemoteSend(msg, rest) => Points(c.(tasks := c.tasks + [SendTask(msg)]), rest)
          case RemoteShutdown(rest) => Points(RequestRemoteShutdown(c), rest)
  }

  ghost function SendPoints(c: Conn, msg: string, answer: Answer, onComplete: Script): set<Conn>
    decreases onComplete, 1
  {
    var (c', fires) := BeginSend(c, msg, answer);
    if fires then Points(c', onComplete) else {}
  }

  ghost function StepPoints(c: Conn, op: Op): set<Conn> {
    match op
    case Establish(script) => if c.phase == Connecting then Points(c.(phase := Connected), script) else {}
    case Call(script) => Points(c, script)
    case Writable(answer, onComplete) =>
      var (c', drained) := BeginDrain(c, answer);
      if drained then Points(c', onComplete) else {}
    case RunTask(answer, onComplete) =>
      if c.tasks == [] || c.tasks[0].ShutdownTask? then {}
      else SendPoints(c.(tasks := c.tasks[1..]), c.tasks[0].msg, answer, onComplete)
  }

  lemma {:induction false} SendPointsKeep(c: Conn, msg: string, answer: Answer, onComplete: Script)
    requires Inv(c)
    ensures forall p :: p in SendPoints(c, msg, answer, onComplete) ==> Inv(p)
    decreases onComplete, 1
  {
    BeginSendKeeps(c, msg, answer);
    PointsKeep(BeginSend(c, msg, answer).0, onComplete);
  }

  lemma {:induction false} PointsKeep(c: Conn, script: Script)
    requires Inv(c)
    ensures forall p :: p in Points(c, script) ==> Inv(p)
    decreases script, 0
  {
    match script
    case End =>
    case Send(msg, answer, onComplete, rest) =>
      SendPointsKeep(c, msg, answer, onComplete);
      SendKeeps(c, msg, answer, onComplete);
      PointsKeep(SendInLoop(c, msg, answer, onComplete), rest);
    case Shutdown(rest) => PointsKeep(RequestShutdown(c), rest);
    case RemoteSend(msg, rest) => PointsKeep(c.(tasks := c.tasks + [SendTask(msg)]), rest);
    case RemoteShutdown(rest) => PointsKeep(RequestRemoteShutdown(c), rest);
  }

  /** The stream invariant also holds at every point of every operation of every run at which a
      callback can look. */
  lemma CallbacksSeeTheStreamKept(ops: seq<Op>, op: Op)
    ensures forall p :: p in StepPoints(Run(Start(), ops), op) ==> Inv(p)
  {
    var c := Run(Start(), ops);
    StreamIsKeptFromStart(ops);
    match op
    case Establish(script) => if c.phase == Connecting { PointsKeep(c.(phase := Connected), script); }
    case Call(script) => PointsKeep(c, script);
    case Writable(answer, onComplete) =>
      BeginDrainKeeps(c, answer);
      PointsKeep(BeginDrain(c, answer).0, onComplete);
    case RunTask(answer, onComplete) =>
      if c.tasks != [] && c.tasks[0].SendTask? {
        SendPointsKeep(c.(tasks := c.tasks[1..]), c.tasks[0].msg, answer, onComplete);
      }
  }

  /** After a send the write-complete callback runs exactly when nothing was queued before the
      message, the write side is open and the direct write took it all, which for a message
      with any bytes means that it was kept and left nothing buffered. The callback then finds
      every message kept so far on the socket. */
  lemma SendCompletesWhenFlushed(c: Conn, msg: string, answer: Answer)
    requires Inv(c)
    ensures var (d, fires) := BeginSend(c, msg, answer);
            && (fires <==> c.buf == "" && c.shuts == [] && answer.Wrote? && |msg| <= answer.n)
            && (msg != "" ==> (fires <==> d.kept != c.kept && d.buf == ""))
            && (fires ==> d.sock == Flat(d.kept))
  {
    BeginSendKeeps(c, msg, answer);
    var d := BeginSend(c, msg, answer).0;
    assert Inv(d);
    assert d.buf == "" ==> d.sock + d.buf == d.sock;
    hide Flat;
  }

  /** After a write event it runs exactly when that event emptied the buffer. */
  lemma DrainCompletesWhenFlushed(c: Conn, answer: Answer)
    requires Inv(c)
    ensures var (d, drained) := BeginDrain(c, answer);
            && (drained <==> c.buf != "" && d.buf == "")
            && (drained ==> d.sock == Flat(d.kept))
            && d.sent == c.sent
  {
    BeginDrainKeeps(c, answer);
    var d := BeginDrain(c, answer).0;
    assert d.buf == "" ==> d.sock + d.buf == d.sock;
  }

  // ---- What is dropped ----------------------------------------------------------------------

  /** Histories only grow. */
  ghost predicate Extends(c: Conn, d: Conn) {
    && c.sock <= d.sock && c.shuts <= d.shuts && c.kept <= d.kept && c.sent <= d.sent
  }

  lemma {:induction false} SendExtends(c: Conn, msg: string, answer: Answer, onComplete: Script)
    ensures Extends(c, SendInLoop(c, msg, answer, onComplete))
    decreases onComplete, 1
  {
    ExecExtends(BeginSend(c, msg, answer).0, onComplete);
  }

  lemma {:induction false} ExecExtends(c: Conn, script: Script)
    ensures Extends(c, Exec(c, script))
    decreases script, 0
  {
    match script
    case End =>
    case Send(msg, answer, onComplete, rest) =>
      SendExtends(c, msg, answer, onComplete);
      ExecExtends(SendInLoop(c, msg, answer, onComplete), rest);
    case Shutdown(rest) => ExecExtends(RequestShutdown(c), rest);
    case RemoteSend(msg, rest) => ExecExtends(c.(tasks := c.tasks + [SendTask(msg)]), rest);
    case RemoteShutdown(rest) => ExecExtends(RequestRemoteShutdown(c), rest);
  }

  lemma {:induction false} RunExtends(c: Conn, ops: seq<Op>)
    ensures Extends(c, Run(c, ops))
    decreases |ops|
  {
    if ops != [] {
      match ops[0] {
        case Establish(script) => if c.phase == Connecting { ExecExtends(c.(phase := Connected), script); }
        case Call(script) => ExecExtends(c, script);
        case Writable(answer, onComplete) => ExecExtends(BeginDrain(c, answer).0, onComplete);
        case RunTask(answer, onComplete) =>
          if c.tasks != [] && c.tasks[0].SendTask? {
            SendExtends(c.(tasks := c.tasks[1..]), c.tasks[0].msg, answer, onComplete);
          }
      }
      RunExtends(Step(c, ops[0]), ops[1..]);
    }
  }

  /** Once the write side is shut, no byte follows in any continuation of the run. */
  lemma NothingAfterShut(c: Conn, ops: seq<Op>)
    requires Inv(c) && Pending(c) && c.shuts != []
    ensures Run(c, ops).sock == c.sock && Run(c, ops).buf == ""
  {
    StreamIsKept(c, ops);
    RunExtends(c, ops);
    assert Run(c, ops).shuts[0] == c.shuts[0];
  }

  predicate NoErrors(script: Script) {
    match script
    case End => true
    case Send(_, answer, onComplete, rest) => !answer.HardError? && NoErrors(onComplete) && NoErrors(rest)
    case Shutdown(rest) => NoErrors(rest)
    case RemoteSend(_, rest) => NoErrors(rest)
    case RemoteShutdown(rest) => NoErrors(rest)
  }

  predicate NoErrorsIn(ops: seq<Op>) {
    forall i :: 0 <= i < |ops| ==>
      match ops[i]
      case Establish(script) => NoErrors(script)
      case Call(script) => NoErrors(script)
      case Writable(_, onComplete) => NoErrors(onComplete)
      case RunTask(answer, onComplete) => !answer.HardError? && NoErrors(onComplete)
  }

  lemma {:induction false} SendDropsNothing(c: Conn, msg: string, answer: Answer, onComplete: Script)
    requires c.sent == c.kept && !answer.HardError? && NoErrors(onComplete)
    requires SendInLoop(c, msg, answer, onComplete).shuts == []
    ensures SendInLoop(c, msg, answer, onComplete).sent == SendInLoop(c, msg, answer, onComplete).kept
    decreases onComplete, 1
  {
    SendExtends(c, msg, answer, onComplete);
    if BeginSend(c, msg, answer).1 { ExecDropsNothing(BeginSend(c, msg, answer).0, onComplete); }
  }

  lemma {:induction false} ExecDropsNothing(c: Conn, script: Script)
    requires c.sent == c.kept && NoErrors(script) && Exec(c, script).shuts == []
    ensures Exec(c, script).sent == Exec(c, script).kept
    decreases script, 0
  {
    match script
    case End =>
    case Send(msg, answer, onComplete, rest) =>
      ExecExtends(SendInLoop(c, msg, answer, onComplete), rest);
      SendDropsNothing(c, msg, answer, onComplete);
      ExecDropsNothing(SendInLoop(c, msg, answer, onComplete), rest);
    case Shutdown(rest) => ExecDropsNothing(RequestShutdown(c), rest);
    case RemoteSend(msg, rest) => ExecDropsNothing(c.(tasks := c.tasks + [SendTask(msg)]), rest);
    case RemoteShutdown(rest) => ExecDropsNothing(RequestRemoteShutdown(c), rest);
  }

  /** A message is dropped only by a hard error of its own first write or after the half-close:
      without those, every message handed to `sendInLoop` is in the stream. */
  lemma {:induction false} NothingDropped(c: Conn, ops: seq<Op>)
    requires c.sent == c.kept && NoErrorsIn(ops) && Run(c, ops).shuts == []
    ensures Run(c, ops).sent == Run(c, ops).kept
    decreases |ops|
  {
    if ops != [] {
      RunExtends(Step(c, ops[0]), ops[1..]);
      assert ops[0] in ops;
      match ops[0] {
        case Establish(script) =>
          if c.phase == Connecting { ExecDropsNothing(c.(phase := Connected), script); }
        case Call(script) => ExecDropsNothing(c, script);
        case Writable(answer, onComplete) =>
          if BeginDrain(c, answer).1 { ExecDropsNothing(BeginDrain(c, answer).0, onComplete); }
        case RunTask(answer, onComplete) =>
          if c.tasks != [] && c.tasks[0].SendTask? {
            SendDropsNothing(c.(tasks := c.tasks[1..]), c.tasks[0].msg, answer, onComplete);
          }
      }
      NothingDropped(Step(c, ops[0]), ops[1..]);
    }
  }

  // ---- Order --------------------------------------------------------------------------------

  /** A message handed to `sendInLoop`, and whether its hard-error return drops it: nothing is
      queued before it, and the write side is shut or its own first write fails. */
  datatype Attempt = Attempt(msg: string, refused: bool)

  predicate Refuses(c: Conn, answer: Answer) {
    !c.writing && c.buf == "" && (c.shuts != [] || answer.HardError?)
  }

  /** The messages in the order they are handed over, callbacks of any depth included: what a
      callback sends comes between the message it follows and the caller's next one. */
  function Began(c: Conn, script: Script): seq<Attempt>
    decreases script, 0
  {
    match script
    case End => []
    case Send(msg, answer, onComplete, rest) =>
      BeganSend(c, msg, answer, onComplete) + Began(SendInLoop(c, msg, answer, onComplete), rest)
    case Shutdown(rest) => Began(RequestShutdown(c), rest)
    case RemoteSend(msg, rest) => Began(c.(tasks := c.tasks + [SendTask(msg)]), rest)
    case RemoteShutdown(rest) => Began(RequestRemoteShutdown(c), rest)
  }

  function BeganSend(c: Conn, msg: string, answer: Answer, onComplete: Script): seq<Attempt>
    decreases onComplete, 1
  {
    var (c', fires) := BeginSend(c, msg, answer);
    [Attempt(msg, Refuses(c, answer))] + if fires then Began(c', onComplete) else []
  }

  function BeganStep(c: Conn, op: Op): seq<Attempt> {
    match op
    case Establish(script) => if c.phase == Connecting then Began(c.(phase := Connected), script) else []
    case Call(script) => Began(c, script)
    case Writable(answer, onComplete) =>
      var (c', drained) := BeginDrain(c, answer);
      if drained then Began(c', onComplete) else []
    case RunTask(answer, onComplete) =>
      if c.tasks == [] || c.tasks[0].ShutdownTask? then []
      else BeganSend(c.(tasks := c.tasks[1..]), c.tasks[0].msg, answer, onComplete)
  }

  function BeganRun(c: Conn, ops: seq<Op>): seq<Attempt>
    decreases |ops|
  {
    if ops == [] then [] else BeganStep(c, ops[0]) + BeganRun(Step(c, ops[0]), ops[1..])
  }

  function All(attempts: seq<Attempt>): seq<string> {
    if attempts == [] then [] else [attempts[0].msg] + All(attempts[1..])
  }

  function Accepted(attempts: seq<Attempt>): seq<string> {
    if attempts == [] then []
    else (if attempts[0].refused then [] else [attempts[0].msg]) + Accepted(attempts[1..])
  }

  lemma {:induction false} AttemptsAppend(a: seq<Attempt>, b: seq<Attempt>)
    ensures All(a + b) == All(a) + All(b) && Accepted(a + b) == Accepted(a) + Accepted(b)
  {
    if a == [] {
      assert a + b == b;
    } else {
      var kept := if a[0].refused then [] else [a[0].msg];
      assert (a + b)[0] == a[0] && (a + b)[1..] == a[1..] + b;
      assert All(a) == [a[0].msg] + All(a[1..]) && Accepted(a) == kept + Accepted(a[1..]);
      assert All(a + b) == [a[0].msg] + All(a[1..] + b) && Accepted(a + b) == kept + Accepted(a[1..] + b);
      hide All;
      hide Accepted;
      AttemptsAppend(a[1..], b);
    }
  }

  /** `d` follows `c` after these attempts. */
  ghost predicate Follows(c: Conn, attempts: seq<Attempt>, d: Conn) {
    d.sent == c.sent + All(attempts) && d.kept == c.kept + Accepted(attempts)
  }

  lemma FollowsTwice(c: Conn, a: seq<Attempt>, d: Conn, b: seq<Attempt>, e: Conn)
    requires Follows(c, a, d) && Follows(d, b, e)
    ensures Follows(c, a + b, e)
  {
    AttemptsAppend(a, b);
    hide All;
    hide Accepted;
    assert c.sent + All(a) + All(b) == c.sent + (All(a) + All(b));
    assert c.kept + Accepted(a) + Accepted(b) == c.kept + (Accepted(a) + Accepted(b));
  }

  lemma OneAttempt(c: Conn, msg: string, answer: Answer)
    ensures Follows(c, [Attempt(msg, Refuses(c, answer))], BeginSend(c, msg, answer).0)
  {
    var one := [Attempt(msg, Refuses(c, answer))];
    assert one[1..] == [];
    assert All(one) == [msg] && Accepted(one) == if Refuses(c, answer) then [] else [msg];
  }

  lemma {:induction false} SendFollows(c: Conn, msg: string, answer: Answer, onComplete: Script)
    ensures Follows(c, BeganSend(c, msg, answer, onComplete), SendInLoop(c, msg, answer, onComplete))
    decreases onComplete, 1
  {
    var (c', fires) := BeginSend(c, msg, answer);
    var one := [Attempt(msg, Refuses(c, answer))];
    OneAttempt(c, msg, answer);
    hide BeginSend;
    hide Follows;
    if fires {
      ExecFollows(c', onComplete);
      FollowsTwice(c, one, c', Began(c', onComplete), Exec(c', onComplete));
    } else {
      assert one + [] == one;
    }
  }

  /** Scripts of any depth: the messages handed over, and those kept, are the ones `Began` lists,
      in that order. */
  lemma {:induction false} ExecFollows(c: Conn, script: Script)
    ensures Follows(c, Began(c, script), Exec(c, script))
    decreases script, 0
  {
    match script
    case End =>
    case Send(msg, answer, onComplete, rest) =>
      hide Follows;
      var d := SendInLoop(c, msg, answer, onComplete);
      SendFollows(c, msg, answer, onComplete);
      ExecFollows(d, rest);
      FollowsTwice(c, BeganSend(c, msg, answer, onComplete), d, Began(d, rest), Exec(d, rest));
    case Shutdown(rest) => ExecFollows(RequestShutdown(c), rest);
    case RemoteSend(msg, rest) => ExecFollows(c.(tasks := c.tasks + [SendTask(msg)]), rest);
    case RemoteShutdown(rest) => ExecFollows(RequestRemoteShutdown(c), rest);
  }

  lemma StepFollows(c: Conn, op: Op)
    ensures Follows(c, BeganStep(c, op), Step(c, op))
  {
    match op
    case Establish(script) => if c.phase == Connecting { ExecFollows(c.(phase := Connected), script); }
    case Call(script) => ExecFollows(c, script);
    case Writable(answer, onComplete) => ExecFollows(BeginDrain(c, answer).0, onComplete);
    case RunTask(answer, onComplete) =>
      if c.tasks != [] && c.tasks[0].SendTask? {
        SendFollows(c.(tasks := c.tasks[1..]), c.tasks[0].msg, answer, onComplete);
      }
  }

  lemma {:induction false} RunFollows(c: Conn, ops: seq<Op>)
    ensures Follows(c, BeganRun(c, ops), Run(c, ops))
    decreases |ops|
  {
    if ops != [] {
      hide Follows;
      var d := Step(c, ops[0]);
      StepFollows(c, ops[0]);
      RunFollows(d, ops[1..]);
      FollowsTwice(c, BeganStep(c, ops[0]), d, BeganRun(d, ops[1..]), Run(d, ops[1..]));
    }
  }

  lemma {:induction false} NoneRefused(attempts: seq<Attempt>)
    ensures |Accepted(attempts)| <= |All(attempts)|
    ensures Accepted(attempts) == All(attempts) <==> forall i :: 0 <= i < |attempts| ==> !attempts[i].refused
  {
    if attempts != [] {
      var rest := attempts[1..];
      assert forall i :: 0 <= i < |rest| ==> rest[i] == attempts[i + 1];
      NoneRefused(rest);
      if !attempts[0].refused && Accepted(attempts) == All(attempts) {
        assert Accepted(rest) == Accepted(attempts)[1..] && All(rest) == All(attempts)[1..];
      }
    }
  }

  /** In every run of a new connection, with callbacks of any depth: socket and buffer together
      hold the messages handed over, in order, except exactly those refused, so nothing is
      dropped if and only if none is refused. When no write fails hard and the write side is
      never shut, that is every message. */
  lemma MessagesArriveInOrder(ops: seq<Op>)
    ensures var c := Run(Start(), ops);
            var attempts := BeganRun(Start(), ops);
            && c.sent == All(attempts)
            && c.sock + c.buf == Flat(Accepted(attempts))
            && (c.kept == c.sent <==> forall i :: 0 <= i < |attempts| ==> !attempts[i].refused)
            && (NoErrorsIn(ops) && c.shuts == [] ==> c.sock + c.buf == Flat(c.sent))
  {
    var c := Run(Start(), ops);
    var attempts := BeganRun(Start(), ops);
    StreamIsKeptFromStart(ops);
    RunFollows(Start(), ops);
    assert [] + All(attempts) == All(attempts) && [] + Accepted(attempts) == Accepted(attempts);
    NoneRefused(attempts);
    if NoErrorsIn(ops) && c.shuts == [] { NothingDropped(Start(), ops); }
  }

  // ---- Draining -----------------------------------------------------------------------------

  predicate SendsNothing(script: Script) {
    match script
    case End => true
    case Send(_, _, _, _) => false
    case Shutdown(rest) => SendsNothing(rest)
    case RemoteSend(_, _) => false
    case RemoteShutdown(rest) => SendsNothing(rest)
  }

  /** Nothing new is sent: no callback, no user code and no queued task sends. */
  predicate Quiet(op: Op) {
    match op
    case Establish(script) => SendsNothing(script)
    case Call(script) => SendsNothing(script)
    case Writable(_, onComplete) => SendsNothing(onComplete)
    case RunTask(_, onComplete) => SendsNothing(onComplete)
  }

  predicate QuietRun(c: Conn, ops: seq<Op>) {
    (forall t :: t in c.tasks ==> t.ShutdownTask?) && forall i :: 0 <= i < |ops| ==> Quiet(ops[i])
  }

  /** How many bytes the kernel is willing to take over the whole run. */
  function Offered(ops: seq<Op>): nat {
    if ops == [] then 0
    else OfferedBy(ops[0]) + Offered(ops[1..])
  }

  function Productive(ops: seq<Op>): nat {
    if ops == [] then 0
    else
      (if ops[0].Writable? && ops[0].answer.Wrote? && 0 < ops[0].answer.n then 1 else 0)
      + Productive(ops[1..])
  }

  lemma {:induction false} ProductiveOffers(ops: seq<Op>)
    ensures Productive(ops) <= Offered(ops)
  {
    if ops != [] { ProductiveOffers(ops[1..]); }
  }

  lemma {:induction false} SendsNothingDoesNothing(c: Conn, script: Script)
    requires c.phase == Disconnecting && SendsNothing(script)
    ensures Exec(c, script) == c
  {
    match script
    case End =>
    case Shutdown(rest) => SendsNothingDoesNothing(c, rest);
    case RemoteShutdown(rest) => SendsNothingDoesNothing(c, rest);
  }

  function OfferedBy(op: Op): nat {
    if op.Writable? && op.answer.Wrote? then op.answer.n else 0
  }

  /** A quiet operation on a connection that is being half-closed either drains, or runs a queued
      shutdown task, or does nothing. */
  lemma QuietStep(c: Conn, op: Op)
    requires Inv(c) && c.phase == Disconnecting && Quiet(op) && forall t :: t in c.tasks ==> t.ShutdownTask?
    ensures Step(c, op).phase == Disconnecting && forall t :: t in Step(c, op).tasks ==> t.ShutdownTask?
    ensures op.Establish? || op.Call? ==> Step(c, op) == c
    ensures op.RunTask? ==> Step(c, op) == if c.tasks == [] then c else ShutdownInLoop(c.(tasks := c.tasks[1..]))
    ensures op.Writable? ==>
              var (d, drained) := BeginDrain(c, op.answer);
              Step(c, op) == if drained then ShutdownInLoop(d) else d
  {
    match op
    case Establish(script) =>
    case Call(script) => SendsNothingDoesNothing(c, script);
    case Writable(answer, onComplete) => SendsNothingDoesNothing(BeginDrain(c, answer).0, onComplete);
    case RunTask(answer, onComplete) => assert c.tasks != [] ==> c.tasks[0] in c.tasks;
  }

  lemma CutTwice(s: string, k: nat, m: nat)
    requires k + m <= |s|
    ensures s[..k] + s[k..][..m] == s[..k + m] && s[k..][m..] == s[k + m..]
  {
  }

  /** The bytes `c` still had to send have left up to the amount offered, and the write side is
      shut exactly when that was all of them. */
  ghost predicate Drained(c: Conn, offered: nat, d: Conn) {
    var n := Min(offered, |c.buf|);
    && d.sock == c.sock + c.buf[..n]
    && d.buf == c.buf[n..]
    && (d.shuts != [] <==> offered >= |c.buf|)
  }

  lemma DrainedThenDrained(c: Conn, first: nat, d: Conn, more: nat, e: Conn)
    requires Drained(c, first, d) && first < |c.buf| && Drained(d, more, e)
    ensures Drained(c, first + more, e)
  {
    CutTwice(c.buf, first, Min(more, |d.buf|));
  }

  lemma DrainStep(c: Conn, op: Op)
    requires Inv(c) && c.phase == Disconnecting && c.buf != "" && QuietRun(c, [op])
    ensures Inv(Step(c, op)) && Pending(Step(c, op)) && Drained(c, OfferedBy(op), Step(c, op))
    ensures Step(c, op).phase == Disconnecting && forall t :: t in Step(c, op).tasks ==> t.ShutdownTask?
  {
    assert Quiet([op][0]);
    QuietStep(c, op);
    StepKeeps(c, op);
    assert c.buf[..0] == "" && c.buf[0..] == c.buf && c.sock + "" == c.sock;
  }

  /** With the half-close asked for and nothing new sent, whatever else the loop runs: the bytes
      leave in order, as many as the kernel offers to take, and the write side is shut exactly
      when they have all left. */
  lemma {:induction false} DrainsThenShuts(c: Conn, ops: seq<Op>)
    requires Inv(c) && c.phase == Disconnecting && c.buf != "" && QuietRun(c, ops)
    ensures Drained(c, Offered(ops), Run(c, ops))
    decreases |ops|
  {
    if ops == [] {
      assert c.buf[..0] == "" && c.sock + "" == c.sock && c.buf[0..] == c.buf;
    } else {
      var d := Step(c, ops[0]);
      assert QuietRun(c, [ops[0]]) && QuietRun(d, ops[1..]) by {
        assert Quiet(ops[0]);
        DrainStep(c, ops[0]);
      }
      DrainStep(c, ops[0]);
      hide Inv;
      hide Step;
      hide QuietRun;
      if d.buf != "" {
        DrainsThenShuts(d, ops[1..]);
        DrainedThenDrained(c, OfferedBy(ops[0]), d, Offered(ops[1..]), Run(d, ops[1..]));
      } else {
        NothingAfterShut(d, ops[1..]);
        RunExtends(d, ops[1..]);
      }
    }
  }

  predicate RunsTask(ops: seq<Op>) {
    exists i :: 0 <= i < |ops| && ops[i].RunTask?
  }

  /** With nothing buffered and the shutdown still queued, the write side is shut exactly when the
      loop gets to a queued task. */
  lemma {:induction false} IdleShuts(c: Conn, ops: seq<Op>)
    requires Inv(c) && c.phase == Disconnecting && c.buf == "" && c.tasks != [] && QuietRun(c, ops)
    ensures Run(c, ops).shuts != [] <==> c.shuts != [] || RunsTask(ops)
    decreases |ops|
  {
    if ops != [] {
      var d := Step(c, ops[0]);
      assert Quiet(ops[0]);
      QuietStep(c, ops[0]);
      RunExtends(d, ops[1..]);
      if ops[0].RunTask? {
        assert RunsTask(ops);
      } else {
        assert d == c && QuietRun(c, ops[1..]);
        IdleShuts(c, ops[1..]);
        if RunsTask(ops) {
          var i :| 0 <= i < |ops| && ops[i].RunTask?;
          assert ops[1..][i - 1].RunTask?;
        }
        if RunsTask(ops[1..]) {
          var i :| 0 <= i < |ops[1..]| && ops[1..][i].RunTask?;
          assert ops[i + 1].RunTask?;
        }
      }
    }
  }

  /** With no send queued a requested half-close happens exactly when it already has, or the
      buffered bytes have all left, or, with nothing buffered, the task queued for it runs. */
  lemma ShutdownAloneHappens(c: Conn, ops: seq<Op>)
    requires Inv(c) && Pending(c) && c.phase == Disconnecting && QuietRun(c, ops)
    ensures Run(c, ops).shuts != [] <==>
              || c.shuts != []
              || (if c.buf != "" then Offered(ops) >= |c.buf| else RunsTask(ops))
  {
    if c.buf != "" {
      DrainsThenShuts(c, ops);
    } else if c.shuts != [] {
      RunExtends(c, ops);
    } else {
      IdleShuts(c, ops);
    }
  }

  /** Every productive write event takes at least one byte, so as many of them as there are
      buffered bytes are enough for the half-close. */
  lemma ShutsAfterEnoughWriteEvents(c: Conn, ops: seq<Op>)
    requires Inv(c) && c.phase == Disconnecting && c.buf != "" && QuietRun(c, ops)
    requires |c.buf| <= Productive(ops)
    ensures Run(c, ops).shuts != [] && Run(c, ops).sock == Flat(c.kept)
  {
    ProductiveOffers(ops);
    DrainsThenShuts(c, ops);
  }

  // ---- With sends still queued --------------------------------------------------------------

  predicate QuietOps(ops: seq<Op>) { forall i :: 0 <= i < |ops| ==> Quiet(ops[i]) }

  /** The same in numbers: `b` bytes buffered and these tasks queued. A write event that takes all
      the bytes shuts, also ahead of queued sends, and so does a shutdown task that finds none. */
  predicate ShutsNow(b: nat, tasks: seq<Task>, op: Op) {
    match op
    case Establish(_) => false
    case Call(_) => false
    case Writable(answer, _) => 0 < b && answer.Wrote? && b <= answer.n
    case RunTask(_, _) => b == 0 && tasks != [] && tasks[0].ShutdownTask?
  }

  function BytesAfter(b: nat, tasks: seq<Task>, op: Op): nat
    requires !ShutsNow(b, tasks, op)
  {
    match op
    case Establish(_) => b
    case Call(_) => b
    case Writable(answer, _) => if 0 < b && answer.Wrote? then b - answer.n else b
    case RunTask(answer, _) =>
      if tasks == [] || tasks[0].ShutdownTask? then b
      else if 0 < b then b + |tasks[0].msg|
      else if answer.HardError? then 0
      else |tasks[0].msg| - if answer.Wrote? then Min(answer.n, |tasks[0].msg|) else 0
  }

  function TasksAfter(tasks: seq<Task>, op: Op): seq<Task> {
    if op.RunTask? && tasks != [] then tasks[1..] else tasks
  }

  predicate Completes(b: nat, tasks: seq<Task>, ops: seq<Op>)
    decreases |ops|
  {
    ops != [] &&
    (ShutsNow(b, tasks, ops[0]) ||
     Completes(BytesAfter(b, tasks, ops[0]), TasksAfter(tasks, ops[0]), ops[1..]))
  }

  lemma QueuedStep(c: Conn, op: Op)
    requires Inv(c) && Pending(c) && c.phase == Disconnecting && c.shuts == [] && Quiet(op)
    ensures var d := Step(c, op);
            && Inv(d) && Pending(d) && d.phase == Disconnecting && d.tasks == TasksAfter(c.tasks, op)
            && (d.shuts != [] <==> ShutsNow(|c.buf|, c.tasks, op))
            && (d.shuts == [] ==> |d.buf| == BytesAfter(|c.buf|, c.tasks, op))
  {
    StepKeeps(c, op);
    match op
    case Establish(script) =>
    case Call(script) => SendsNothingDoesNothing(c, script);
    case Writable(answer, onComplete) => SendsNothingDoesNothing(BeginDrain(c, answer).0, onComplete);
    case RunTask(answer, onComplete) =>
      if c.tasks != [] && c.tasks[0].SendTask? {
        SendsNothingDoesNothing(BeginSend(c.(tasks := c.tasks[1..]), c.tasks[0].msg, answer).0, onComplete);
      }
  }

  /** In every state in which a half-close is requested, whatever is still queued: the write side
      is shut exactly when the byte count says so. */
  lemma {:induction false} RequestedShutdownHappens(c: Conn, ops: seq<Op>)
    requires Inv(c) && Pending(c) && c.phase == Disconnecting && QuietOps(ops)
    ensures Run(c, ops).shuts != [] <==> c.shuts != [] || Completes(|c.buf|, c.tasks, ops)
    decreases |ops|
  {
    RunExtends(c, ops);
    if c.shuts == [] && ops != [] {
      var d := Step(c, ops[0]);
      assert Quiet(ops[0]) && QuietOps(ops[1..]);
      QueuedStep(c, ops[0]);
      hide Inv;
      hide Step;
      hide Quiet;
      RequestedShutdownHappens(d, ops[1..]);
    }
  }

  function QueuedBytes(tasks: seq<Task>): nat {
    if tasks == [] then 0
    else (if tasks[0].SendTask? then |tasks[0].msg| else 0) + QueuedBytes(tasks[1..])
  }

  function TaskRuns(ops: seq<Op>): nat {
    if ops == [] then 0 else (if ops[0].RunTask? then 1 else 0) + TaskRuns(ops[1..])
  }

  lemma {:induction false} TasksRunOut(c: Conn, ops: seq<Op>)
    requires Inv(c) && Pending(c) && c.phase == Disconnecting && QuietOps(ops)
    ensures var d := Run(c, ops);
            d.shuts != [] ||
            (&& Inv(d) && Pending(d) && d.phase == Disconnecting
             && (|c.tasks| <= TaskRuns(ops) ==> d.tasks == [])
             && |d.buf| + QueuedBytes(d.tasks) <= |c.buf| + QueuedBytes(c.tasks))
    decreases |ops|
  {
    RunExtends(c, ops);
    if c.shuts == [] && ops != [] {
      var d := Step(c, ops[0]);
      assert Quiet(ops[0]) && QuietOps(ops[1..]);
      QueuedStep(c, ops[0]);
      hide Inv;
      hide Step;
      hide Quiet;
      hide Pending;
      TasksRunOut(d, ops[1..]);
      RunExtends(d, ops[1..]);
    }
  }

  /** Sends queued before the shutdown do not keep it from happening: once the queue has been run,
      as many productive write events as bytes were buffered or queued are enough. */
  lemma ShutsAfterTheQueue(c: Conn, ops: seq<Op>, more: seq<Op>)
    requires Inv(c) && Pending(c) && c.phase == Disconnecting && QuietOps(ops) && QuietOps(more)
    requires |c.tasks| <= TaskRuns(ops) && |c.buf| + QueuedBytes(c.tasks) <= Productive(more)
    ensures Run(Run(c, ops), more).shuts != []
  {
    TasksRunOut(c, ops);
    var d := Run(c, ops);
    if d.shuts != [] {
      RunExtends(d, more);
    } else {
      ShutsAfterEnoughWriteEvents(d, more);
    }
  }

  /** But they may be lost: a queued message is refused exactly when the count has completed
      before its task runs, or its own direct write fails. */
  lemma QueuedSendIsLostWhen(c: Conn, ops: seq<Op>, answer: Answer)
    requires Inv(c) && Pending(c) && c.phase == Disconnecting && c.shuts == [] && QuietOps(ops)
    ensures Refuses(Run(c, ops), answer) <==>
              Completes(|c.buf|, c.tasks, ops) || (Run(c, ops).buf == "" && answer.HardError?)
  {
    RequestedShutdownHappens(c, ops);
    StreamIsKept(c, ops);
  }

  /** A message sent by another thread before it shuts the connection down, overtaken by its own
      shutdown: the state changes at once, the message only when its task runs. */
  lemma QueuedSendIsLost(first: char, msg: string)
    ensures var ops := [Establish(Send([first], WouldBlock, End, RemoteSend(msg, RemoteShutdown(End)))),
                        Writable(Wrote(1), End), RunTask(Wrote(|msg|), End)];
            var c := Run(Start(), ops);
            c.sent == [[first], msg] && c.kept == [[first]] && c.sock == [first] && c.shuts == [[first]]
  {
    var script := Send([first], WouldBlock, End, RemoteSend(msg, RemoteShutdown(End)));
    var ops := [Establish(script), Writable(Wrote(1), End), RunTask(Wrote(|msg|), End)];
    var c0 := Start().(phase := Connected);
    var c1 := c0.(sent := [[first]], kept := [[first]], buf := [first], writing := true);
    assert [first][0..] == [first] && "" + [first] == [first] && c0.sent + [[first]] == [[first]];
    assert BeginSend(c0, [first], WouldBlock) == (c1, false);
    assert SendInLoop(c0, [first], WouldBlock, End) == c1;
    var c2 := c1.(tasks := [SendTask(msg), ShutdownTask], phase := Disconnecting);
    assert Exec(c1, RemoteSend(msg, RemoteShutdown(End))) == c2;
    assert Exec(c0, script) == c2;
    assert Step(Start(), ops[0]) == c2;
    var c3 := c2.(sock := [first], buf := "", writing := false, shuts := [[first]]);
    assert c2.sock + [first][..1] == [first] && [first][1..] == "";
    var drained := c2.(sock := [first], buf := "", writing := false);
    assert BeginDrain(c2, Wrote(1)) == (drained, true) && Exec(drained, End) == drained;
    assert [] + [[first]] == [[first]];
    assert Step(c2, ops[1]) == c3;
    var c4 := Step(c3, ops[2]);
    assert ops[1..][1..] == [ops[2]] && [ops[2]][1..] == [];
    assert Run(c3, [ops[2]]) == c4;
  }

  // ---- What was asked for -------------------------------------------------------------------

  /** A send queued by another thread, or a shutdown, by another thread or on the loop thread. */
  datatype Request = AskSend(msg: string) | AskShut(remote: bool)

  /** The requests a script makes, in order, those of its callbacks at any depth included. */
  function Requests(c: Conn, script: Script): seq<Request>
    decreases script, 0
  {
    match script
    case End => []
    case Send(msg, answer, onComplete, rest) =>
      RequestsOfSend(c, msg, answer, onComplete) + Requests(SendInLoop(c, msg, answer, onComplete), rest)
    case Shutdown(rest) => [AskShut(false)] + Requests(RequestShutdown(c), rest)
    case RemoteSend(msg, rest) => [AskSend(msg)] + Requests(c.(tasks := c.tasks + [SendTask(msg)]), rest)
    case RemoteShutdown(rest) => [AskShut(true)] + Requests(RequestRemoteShutdown(c), rest)
  }

  function RequestsOfSend(c: Conn, msg: string, answer: Answer, onComplete: Script): seq<Request>
    decreases onComplete, 1
  {
    var (c', fires) := BeginSend(c, msg, answer);
    if fires then Requests(c', onComplete) else []
  }

  function RequestsOf(c: Conn, op: Op): seq<Request> {
    match op
    case Establish(script) => if c.phase == Connecting then Requests(c.(phase := Connected), script) else []
    case Call(script) => Requests(c, script)
    case Writable(answer, onComplete) =>
      var (c', drained) := BeginDrain(c, answer);
      if drained then Requests(c', onComplete) else []
    case RunTask(answer, onComplete) =>
      if c.tasks == [] || c.tasks[0].ShutdownTask? then []
      else RequestsOfSend(c.(tasks := c.tasks[1..]), c.tasks[0].msg, answer, onComplete)
  }

  /** Only the first shutdown of a connected connection changes its state. */
  function NextPhase(phase: Phase, r: Request): Phase {
    if r.AskShut? && phase == Connected then Disconnecting else phase
  }

  function PhaseAfter(phase: Phase, requests: seq<Request>): Phase
    decreases |requests|
  {
    if requests == [] then phase else PhaseAfter(NextPhase(phase, requests[0]), requests[1..])
  }

  /** The tasks these requests queue. */
  function QueuedOne(phase: Phase, r: Request): seq<Task> {
    match r
    case AskSend(msg) => [SendTask(msg)]
    case AskShut(remote) => if remote && phase == Connected then [ShutdownTask] else []
  }

  function QueuedBy(phase: Phase, requests: seq<Request>): seq<Task>
    decreases |requests|
  {
    if requests == [] then []
    else QueuedOne(phase, requests[0]) + QueuedBy(NextPhase(phase, requests[0]), requests[1..])
  }

  lemma {:induction false} RequestsAppend(phase: Phase, a: seq<Request>, b: seq<Request>)
    ensures PhaseAfter(phase, a + b) == PhaseAfter(PhaseAfter(phase, a), b)
    ensures QueuedBy(phase, a + b) == QueuedBy(phase, a) + QueuedBy(PhaseAfter(phase, a), b)
    decreases |a|
  {
    hide NextPhase;
    hide QueuedOne;
    if a == [] {
      assert a + b == b;
    } else {
      var next, one := NextPhase(phase, a[0]), QueuedOne(phase, a[0]);
      assert (a + b)[0] == a[0] && (a + b)[1..] == a[1..] + b;
      assert QueuedBy(phase, a) == one + QueuedBy(next, a[1..]);
      assert QueuedBy(phase, a + b) == one + QueuedBy(next, a[1..] + b);
      hide QueuedBy;
      RequestsAppend(next, a[1..], b);
      var more := QueuedBy(PhaseAfter(phase, a), b);
      assert one + (QueuedBy(next, a[1..]) + more) == one + QueuedBy(next, a[1..]) + more;
    }
  }

  /** `d` follows `c` after these requests, as far as state and queue go. */
  ghost predicate Answers(c: Conn, requests: seq<Request>, d: Conn) {
    d.phase == PhaseAfter(c.phase, requests) && d.tasks == c.tasks + QueuedBy(c.phase, requests)
  }

  lemma AnswersTwice(c: Conn, a: seq<Request>, d: Conn, b: seq<Request>, e: Conn)
    requires Answers(c, a, d) && Answers(d, b, e)
    ensures Answers(c, a + b, e)
  {
    RequestsAppend(c.phase, a, b);
  }

  lemma AnswersOne(c: Conn)
    ensures Answers(c, [], c)
    ensures Answers(c, [AskShut(false)], RequestShutdown(c))
    ensures Answers(c, [AskShut(true)], RequestRemoteShutdown(c))
    ensures forall msg :: Answers(c, [AskSend(msg)], c.(tasks := c.tasks + [SendTask(msg)]))
  {
    assert [AskShut(true)][1..] == [] && [AskShut(false)][1..] == [];
    assert QueuedBy(c.phase, [AskShut(true)]) == if c.phase == Connected then [ShutdownTask] else [];
    assert QueuedBy(c.phase, [AskShut(false)]) == [];
    forall msg: string
      ensures Answers(c, [AskSend(msg)], c.(tasks := c.tasks + [SendTask(msg)]))
    {
      assert [AskSend(msg)][1..] == [];
      assert QueuedBy(c.phase, [AskSend(msg)]) == [SendTask(msg)];
    }
  }

  lemma {:induction false} SendAnswers(c: Conn, msg: string, answer: Answer, onComplete: Script)
    ensures Answers(c, RequestsOfSend(c, msg, answer, onComplete), SendInLoop(c, msg, answer, onComplete))
    decreases onComplete, 1
  {
    var (c', fires) := BeginSend(c, msg, answer);
    assert c'.phase == c.phase && c'.tasks == c.tasks;
    AnswersOne(c);
    if fires { ExecAnswers(c', onComplete); }
  }

  lemma {:induction false} ExecAnswers(c: Conn, script: Script)
    ensures Answers(c, Requests(c, script), Exec(c, script))
    decreases script, 0
  {
    AnswersOne(c);
    hide Answers;
    match script
    case End =>
    case Send(msg, answer, onComplete, rest) =>
      var d := SendInLoop(c, msg, answer, onComplete);
      SendAnswers(c, msg, answer, onComplete);
      ExecAnswers(d, rest);
      AnswersTwice(c, RequestsOfSend(c, msg, answer, onComplete), d, Requests(d, rest), Exec(d, rest));
    case Shutdown(rest) =>
      var d := RequestShutdown(c);
      ExecAnswers(d, rest);
      AnswersTwice(c, [AskShut(false)], d, Requests(d, rest), Exec(d, rest));
    case RemoteSend(msg, rest) =>
      var d := c.(tasks := c.tasks + [SendTask(msg)]);
      ExecAnswers(d, rest);
      AnswersTwice(c, [AskSend(msg)], d, Requests(d, rest), Exec(d, rest));
    case RemoteShutdown(rest) =>
      var d := RequestRemoteShutdown(c);
      ExecAnswers(d, rest);
      AnswersTwice(c, [AskShut(true)], d, Requests(d, rest), Exec(d, rest));
  }

  /** Where an operation's requests find the connection. */
  function Entered(c: Conn, op: Op): Phase {
    if op.Establish? && c.phase == Connecting then Connected else c.phase
  }

  function TakenBy(c: Conn, op: Op): seq<Task> {
    if op.RunTask? && c.tasks != [] then [c.tasks[0]] else []
  }

  lemma RunTaskAnswers(c: Conn, answer: Answer, onComplete: Script)
    requires c.tasks != [] && c.tasks[0].SendTask?
    ensures var op := RunTask(answer, onComplete);
            && Step(c, op).phase == PhaseAfter(c.phase, RequestsOf(c, op))
            && c.tasks + QueuedBy(c.phase, RequestsOf(c, op)) == [c.tasks[0]] + Step(c, op).tasks
  {
    var d := c.(tasks := c.tasks[1..]);
    SendAnswers(d, c.tasks[0].msg, answer, onComplete);
    hide RequestsOfSend;
    hide SendInLoop;
    hide QueuedBy;
    hide PhaseAfter;
    var queued := QueuedBy(c.phase, RequestsOfSend(d, c.tasks[0].msg, answer, onComplete));
    assert c.tasks == [c.tasks[0]] + d.tasks;
    assert [c.tasks[0]] + d.tasks + queued == [c.tasks[0]] + (d.tasks + queued);
  }

  lemma StepAnswers(c: Conn, op: Op)
    ensures Step(c, op).phase == PhaseAfter(Entered(c, op), RequestsOf(c, op))
    ensures c.tasks + QueuedBy(Entered(c, op), RequestsOf(c, op)) == TakenBy(c, op) + Step(c, op).tasks
  {
    match op
    case Establish(script) => if c.phase == Connecting { ExecAnswers(c.(phase := Connected), script); }
    case Call(script) => ExecAnswers(c, script);
    case Writable(answer, onComplete) => ExecAnswers(BeginDrain(c, answer).0, onComplete);
    case RunTask(answer, onComplete) =>
      if c.tasks != [] && c.tasks[0].SendTask? { RunTaskAnswers(c, answer, onComplete); }
  }

  /** A shutdown was asked for once the connection was established. */
  predicate ShutAsked(c: Conn, ops: seq<Op>)
    decreases |ops|
  {
    ops != [] &&
    ((Entered(c, ops[0]) != Connecting && exists i :: 0 <= i < |RequestsOf(c, ops[0])| && RequestsOf(c, ops[0])[i].AskShut?)
     || ShutAsked(Step(c, ops[0]), ops[1..]))
  }

  predicate HasEstablish(ops: seq<Op>) { exists i :: 0 <= i < |ops| && ops[i].Establish? }

  lemma {:induction false} PhaseAfterWhen(phase: Phase, requests: seq<Request>)
    ensures PhaseAfter(phase, requests) ==
              if phase == Connected && exists i :: 0 <= i < |requests| && requests[i].AskShut? then Disconnecting else phase
    decreases |requests|
  {
    if requests != [] {
      var rest := requests[1..];
      assert forall i :: 0 <= i < |rest| ==> rest[i] == requests[i + 1];
      PhaseAfterWhen(NextPhase(phase, requests[0]), rest);
      if i :| 0 <= i < |requests| && requests[i].AskShut? {
        assert i > 0 ==> rest[i - 1].AskShut?;
      }
    }
  }

  lemma {:induction false} PhaseOverRuns(c: Conn, ops: seq<Op>)
    requires c.phase != Disconnected
    ensures Run(c, ops).phase ==
              if c.phase == Disconnecting || ShutAsked(c, ops) then Disconnecting
              else if c.phase == Connected || HasEstablish(ops) then Connected
              else Connecting
    decreases |ops|
  {
    if ops != [] {
      var d, rest := Step(c, ops[0]), ops[1..];
      StepAnswers(c, ops[0]);
      PhaseAfterWhen(Entered(c, ops[0]), RequestsOf(c, ops[0]));
      hide Step;
      hide RequestsOf;
      PhaseOverRuns(d, rest);
      assert HasEstablish(ops) <==> ops[0].Establish? || HasEstablish(rest) by {
        assert forall i :: 0 <= i < |rest| ==> rest[i] == ops[i + 1];
        if i :| 0 <= i < |ops| && ops[i].Establish? { assert i > 0 ==> rest[i - 1].Establish?; }
      }
    }
  }

  /** Over every run of a new connection: it is half-closing exactly when a shutdown was asked for
      after it was established, by whichever thread and at whatever depth of callbacks, and
      otherwise connected exactly when it was established. */
  lemma StateIsWhatWasAsked(ops: seq<Op>)
    ensures var c := Run(Start(), ops);
            && (c.phase == Disconnecting <==> ShutAsked(Start(), ops))
            && (c.phase == Connecting <==> !HasEstablish(ops) && !ShutAsked(Start(), ops))
  {
    PhaseOverRuns(Start(), ops);
  }

  function QueuedIn(c: Conn, ops: seq<Op>): seq<Task>
    decreases |ops|
  {
    if ops == [] then []
    else QueuedBy(Entered(c, ops[0]), RequestsOf(c, ops[0])) + QueuedIn(Step(c, ops[0]), ops[1..])
  }

  function TakenIn(c: Conn, ops: seq<Op>): seq<Task>
    decreases |ops|
  {
    if ops == [] then [] else TakenBy(c, ops[0]) + TakenIn(Step(c, ops[0]), ops[1..])
  }

  lemma FifoTwice(a: seq<Task>, q: seq<Task>, t: seq<Task>, d: seq<Task>, q': seq<Task>, t': seq<Task>, e: seq<Task>)
    requires a + q == t + d && d + q' == t' + e
    ensures a + (q + q') == (t + t') + e
  {
    assert a + (q + q') == (a + q) + q';
    assert (t + d) + q' == t + (d + q');
    assert t + (t' + e) == (t + t') + e;
  }

  /** Over every run the queue is first in, first out: the tasks run and those still queued are
      the ones queued, in order. */
  lemma {:induction false} TasksAreFifo(c: Conn, ops: seq<Op>)
    ensures c.tasks + QueuedIn(c, ops) == TakenIn(c, ops) + Run(c, ops).tasks
    decreases |ops|
  {
    if ops == [] {
      assert c.tasks + [] == [] + c.tasks;
    } else {
      var d, rest := Step(c, ops[0]), ops[1..];
      StepAnswers(c, ops[0]);
      hide Step;
      hide RequestsOf;
      hide QueuedBy;
      hide TakenBy;
      TasksAreFifo(d, rest);
      FifoTwice(c.tasks, QueuedBy(Entered(c, ops[0]), RequestsOf(c, ops[0])), TakenBy(c, ops[0]), d.tasks,
                QueuedIn(d, rest), TakenIn(d, rest), Run(d, rest).tasks);
    }
  }

  /** Before a shutdown is asked for nothing is shut and no shutdown is queued. */
  ghost predicate Unasked(c: Conn) {
    c.phase == Connecting || c.phase == Connected ==> c.shuts == [] && ShutdownTask !in c.tasks
  }

  lemma {:induction false} SendUnasked(c: Conn, msg: string, answer: Answer, onComplete: Script)
    requires Unasked(c)
    ensures Unasked(SendInLoop(c, msg, answer, onComplete))
    decreases onComplete, 1
  {
    ExecUnasked(BeginSend(c, msg, answer).0, onComplete);
  }

  lemma {:induction false} ExecUnasked(c: Conn, script: Script)
    requires Unasked(c)
    ensures Unasked(Exec(c, script))
    decreases script, 0
  {
    match script
    case End =>
    case Send(msg, answer, onComplete, rest) =>
      SendUnasked(c, msg, answer, onComplete);
      ExecUnasked(SendInLoop(c, msg, answer, onComplete), rest);
    case Shutdown(rest) => ExecUnasked(RequestShutdown(c), rest);
    case RemoteSend(msg, rest) => ExecUnasked(c.(tasks := c.tasks + [SendTask(msg)]), rest);
    case RemoteShutdown(rest) => ExecUnasked(RequestRemoteShutdown(c), rest);
  }

  lemma {:induction false} RunUnasked(c: Conn, ops: seq<Op>)
    requires Unasked(c)
    ensures Unasked(Run(c, ops))
    decreases |ops|
  {
    if ops != [] {
      match ops[0] {
        case Establish(script) => if c.phase == Connecting { ExecUnasked(c.(phase := Connected), script); }
        case Call(script) => ExecUnasked(c, script);
        case Writable(answer, onComplete) => ExecUnasked(BeginDrain(c, answer).0, onComplete);
        case RunTask(answer, onComplete) =>
          if c.tasks != [] && c.tasks[0].SendTask? {
            SendUnasked(c.(tasks := c.tasks[1..]), c.tasks[0].msg, answer, onComplete);
          }
      }
      RunUnasked(Step(c, ops[0]), ops[1..]);
    }
  }

  /** Nothing is shut unasked: SHUT_WR comes only after a shutdown was asked for. */
  lemma NothingIsShutUnasked(ops: seq<Op>)
    ensures var c := Run(Start(), ops);
            !ShutAsked(Start(), ops) ==> c.shuts == [] && ShutdownTask !in c.tasks
  {
    RunUnasked(Start(), ops);
    StateIsWhatWasAsked(ops);
    PhaseOverRuns(Start(), ops);
  }

  /** A shutdown on the loop thread of a connected connection: at once if nothing is buffered, and
      otherwise exactly when the byte count completes. */
  lemma ShutdownHappens(ops: seq<Op>, more: seq<Op>)
    requires Run(Start(), ops).phase == Connected && QuietOps(more)
    ensures var c := Run(Start(), ops);
            var d := Step(c, Call(Shutdown(End)));
            && d.phase == Disconnecting && d.sock == c.sock && d.buf == c.buf && d.tasks == c.tasks
            && (d.shuts != [] <==> c.buf == "")
            && (Run(d, more).shuts != [] <==> c.buf == "" || Completes(|c.buf|, c.tasks, more))
  {
    StreamIsKeptFromStart(ops);
    RunUnasked(Start(), ops);
    var c := Run(Start(), ops);
    assert Exec(RequestShutdown(c), End) == RequestShutdown(c);
    var d := Step(c, Call(Shutdown(End)));
    StepKeeps(c, Call(Shutdown(End)));
    RequestedShutdownHappens(d, more);
  }

  /** A shutdown by another thread: its task waits behind those queued, and then the same. */
  lemma RemoteShutdownHappens(ops: seq<Op>, more: seq<Op>)
    requires Run(Start(), ops).phase == Connected && QuietOps(more)
    ensures var c := Run(Start(), ops);
            var d := Step(c, Call(RemoteShutdown(End)));
            && d == c.(phase := Disconnecting, tasks := c.tasks + [ShutdownTask])
            && (Run(d, more).shuts != [] <==> Completes(|c.buf|, c.tasks + [ShutdownTask], more))
  {
    StreamIsKeptFromStart(ops);
    RunUnasked(Start(), ops);
    var c := Run(Start(), ops);
    assert Exec(RequestRemoteShutdown(c), End) == RequestRemoteShutdown(c);
    var d := Step(c, Call(RemoteShutdown(End)));
    StepKeeps(c, Call(RemoteShutdown(End)));
    RequestedShutdownHappens(d, more);
  }

  // ---- The connection object ----------------------------------------------------------------

  class TcpConnection {
    var state: Phase
    const snd: Buffer
    var writing: bool
    var tasks: seq<Task>
    var sock: string
    var shuts: seq<string>
    var sent: seq<string>
    var kept: seq<string>

    ghost predicate Valid()
      reads this, snd
    {
      snd.Valid()
    }

    ghost function View(): Conn
      reads this, snd, snd.data
      requires Valid()
    {
      Conn(state, snd.Contents(), writing, tasks, sock, shuts, sent, kept)
    }

    constructor ()
      ensures Valid() && fresh(snd) && fresh(snd.data) && View() == Start()
    {
      state, writing, tasks := Connecting, false, [];
      sock, shuts, sent, kept := "", [], [], [];
      snd := new Buffer(1024);
    }

    /** Called by the server once the connection is in its map; runs the connection callback. */
    method ConnectEstablished(script: Script)
      requires Valid() && state == Connecting
      modifies this, snd, snd.data
      ensures Valid() && (snd.data == old(snd.data) || fresh(snd.data))
      ensures View() == Step(old(View()), Establish(script))
    {
      state := Connected;
      hide Exec;
      RunScript(script);
    }

    /** write(2) on the connection's descriptor: -1 would block, -2 any other error. */
    method WriteSocket(bytes: string, answer: Answer) returns (n: int)
      requires Valid()
      modifies this`sock
      ensures match Kernel(old(View()), |bytes|, answer)
              case HardError => n == -2
              case WouldBlock => n == -1
              case Wrote(k) => n == k
      ensures sock == if n >= 0 then old(sock) + bytes[..n] else old(sock)
    {
      if shuts != [] {
        return -2;
      }
      match answer
      case HardError => n := -2;
      case WouldBlock => n := -1;
      case Wrote(k) =>
        n := Min(k, |bytes|);
        sock := sock + bytes[..n];
    }

    method BufferLeft(left: string)
      requires Valid()
      modifies this`writing, snd, snd.data
      ensures Valid() && (snd.data == old(snd.data) || fresh(snd.data))
      ensures View() == Buffered(old(View()), left)
    {
      if 0 < |left| {
        snd.Append(left);
        if !writing {
          writing := true;
        }
      }
    }

    /** The direct write, when nothing is queued before it. */
    method TryWrite(msg: string, answer: Answer) returns (outcome: Outcome)
      requires Valid()
      modifies this`sock, this`sent, this`kept
      ensures Valid() && (View(), outcome) == WriteFirst(old(View()), msg, answer)
    {
      sent := sent + [msg];
      outcome := Taken(0, false);
      if !writing && snd.reader == snd.writer {
        var n := WriteSocket(msg, answer);
        if n >= 0 {
          outcome := Taken(n, n == |msg|);
        } else if n != -1 {
          return Dropped;
        }
      }
      kept := kept + [msg];
    }

    method SendInLoopNow(msg: string, answer: Answer, onComplete: Script)
      requires Valid()
      modifies this, snd, snd.data
      ensures Valid() && (snd.data == old(snd.data) || fresh(snd.data))
      ensures View() == SendInLoop(old(View()), msg, answer, onComplete)
      decreases onComplete, 1
    {
      hide Kernel;
      hide Exec;
      var outcome := TryWrite(msg, answer);
      if outcome.Dropped? {
        return;
      }
      var left := msg[outcome.n..];
      if outcome.complete {
        assert left == "";
        RunScript(onComplete);
      }
      BufferLeft(left);
    }

    method ShutdownInLoopNow()
      requires Valid()
      modifies this`shuts
      ensures Valid() && View() == ShutdownInLoop(old(View()))
    {
      if !writing {
        shuts := shuts + [sock];
      }
    }

    method ShutdownNow()
      requires Valid()
      modifies this`state, this`shuts
      ensures Valid() && View() == RequestShutdown(old(View()))
    {
      if state == Connected {
        state := Disconnecting;
        ShutdownInLoopNow();
      }
    }

    /** Runs a callback: the calls of the script one after the other. */
    method RunScript(script: Script)
      requires Valid()
      modifies this, snd, snd.data
      ensures Valid() && (snd.data == old(snd.data) || fresh(snd.data))
      ensures View() == Exec(old(View()), script)
      decreases script, 0
    {
      match script
      case End =>
      case Send(msg, answer, onComplete, rest) =>
        SendInLoopNow(msg, answer, onComplete);
        RunScript(rest);
      case Shutdown(rest) =>
        ShutdownNow();
        RunScript(rest);
      case RemoteSend(msg, rest) =>
        tasks := tasks + [SendTask(msg)];
        RunScript(rest);
      case RemoteShutdown(rest) =>
        if state == Connected {
          state := Disconnecting;
          tasks := tasks + [ShutdownTask];
        }
        RunScript(rest);
    }

    method HandleWriteNow(answer: Answer, onComplete: Script)
      requires Valid()
      modifies this, snd, snd.data
      ensures Valid() && (snd.data == old(snd.data) || fresh(snd.data))
      ensures View() == HandleWrite(old(View()), answer, onComplete)
    {
      if writing {
        var n := WriteSocket(snd.data[snd.reader..snd.writer], answer);
        if n > 0 {
          snd.Retrieve(n);
          if snd.reader == snd.writer {
            writing := false;
            assert View() == BeginDrain(old(View()), answer).0;
            RunScript(onComplete);
            if state == Disconnecting {
              ShutdownInLoopNow();
            }
          }
        }
      }
    }

    /** The loop runs the oldest task another thread queued for this connection. */
    method RunTaskNow(answer: Answer, onComplete: Script)
      requires Valid()
      modifies this, snd, snd.data
      ensures Valid() && (snd.data == old(snd.data) || fresh(snd.data))
      ensures View() == Step(old(View()), RunTask(answer, onComplete))
    {
      if tasks != [] {
        hide SendInLoop;
        hide HandleWrite;
        var task := tasks[0];
        tasks := tasks[1..];
        match task
        case SendTask(msg) => SendInLoopNow(msg, answer, onComplete);
        case ShutdownTask => ShutdownInLoopNow();
      }
    }
  }
}
