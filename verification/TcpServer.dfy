/** The life of connections in a server (net/tcp_server.cc, net/tcp_connection.cc) for code on
    the loop thread, where `RunInLoop` runs its argument at once. Connections are numbered in the
    order they are accepted. Their channels share the loop's poller with the channels that were
    there before; every change of interest and every close is an update of the poller, and an
    update that trips one of its asserts ends the run. */
module TcpServers {
  import P = Pollers
  import T = TcpConnections

  const READ := 3
  const WRITE := 4

  /** The channels of the loop: those of connections and others. */
  datatype Chan = Other(n: nat) | Conn(id: nat)

  /** What a user callback may do to a connection: shut it down, or send, which switches write
      interest on or off. */
  datatype Act = Shut(id: nat) | Interest(id: nat, writing: bool)

  type Script = seq<Act>

  /** `deregistrations` counts the removals of the channel from the poller, `userCalls` lists the
      states the connection callback saw. */
  datatype Life = Life(
    name: string, fd: int, phase: T.Phase, registered: bool, deregistrations: nat, userCalls: seq<T.Phase>)

  /** An update of the poller: the registration, a change of interest or the removal. */
  datatype Note = Began(id: nat) | Changed(id: nat) | Ended(id: nat)

  /** `log` lists the updates asked for, `aborted` says that the last of them tripped an assert. */
  datatype Server = Server(
    name: string, connections: map<string, nat>, lives: seq<Life>,
    registry: P.Registry<Chan>, log: seq<Note>, aborted: bool)

  /** The events poll(2) reports for a channel and what reading its socket returns. */
  datatype Events = Events(hangUp: bool, readable: bool, received: int)

  /** `Do` is a write event or a task from another thread, `Destroy` the destructor. */
  datatype Op =
    | Accept(fd: int, onConnected: Script)
    | Event(id: nat, events: Events, onMessage: Script, onDestroyed: Script)
    | Do(act: Act)
    | Destroy(scripts: seq<Script>)

  // ---- Names --------------------------------------------------------------------------------

  function Digit(d: nat): char
    requires d < 10
  {
    ['0', '1', '2', '3', '4', '5', '6', '7', '8', '9'][d]
  }

  function Decimal(n: nat): (s: string)
    ensures |s| > 0 && (n >= 10 ==> |s| > 1)
  {
    if n < 10 then [Digit(n)] else Decimal(n / 10) + [Digit(n % 10)]
  }

  lemma {:induction false} DecimalIsInjective(a: nat, b: nat)
    requires Decimal(a) == Decimal(b)
    ensures a == b
  {
    if a < 10 || b < 10 {
      assert a < 10 && b < 10;
      assert Decimal(a)[0] == Digit(a) && Decimal(b)[0] == Digit(b);
    } else {
      var s := Decimal(a);
      assert s[|s| - 1] == Digit(a % 10) == Digit(b % 10);
      assert Decimal(a / 10) == s[..|s| - 1] == Decimal(b / 10);
      DecimalIsInjective(a / 10, b / 10);
    }
  }

  function ConnName(server: string, id: nat): string {
    server + "#" + Decimal(id)
  }

  lemma NamesAreDistinct(server: string, a: nat, b: nat)
    requires ConnName(server, a) == ConnName(server, b)
    ensures a == b
  {
    var n := |server| + 1;
    assert ConnName(server, a)[n..] == Decimal(a);
    assert ConnName(server, b)[n..] == Decimal(b);
    DecimalIsInjective(a, b);
  }

  /** The order of std::string, which is that of the map's keys. */
  predicate Before(a: string, b: string) {
    b != [] && (a == [] || a[0] < b[0] || (a[0] == b[0] && Before(a[1..], b[1..])))
  }

  lemma {:induction false} BeforeIsStrict(a: string, b: string)
    requires Before(a, b)
    ensures !Before(b, a)
  {
    if a != [] && a[0] == b[0] { BeforeIsStrict(a[1..], b[1..]); }
  }

  lemma {:induction false} BeforeIsTotal(a: string, b: string)
    requires a != b
    ensures Before(a, b) || Before(b, a)
  {
    if a != [] && b != [] && a[0] == b[0] {
      assert a == [a[0]] + a[1..] && b == [b[0]] + b[1..];
      BeforeIsTotal(a[1..], b[1..]);
    }
  }

  lemma {:induction false} BeforeIsTransitive(a: string, b: string, c: string)
    requires Before(a, b) && Before(b, c)
    ensures Before(a, c)
  {
    if a != [] && a[0] == b[0] == c[0] { BeforeIsTransitive(a[1..], b[1..], c[1..]); }
  }

  lemma {:induction false} BeforeAfterPrefix(p: string, a: string, b: string)
    ensures Before(p + a, p + b) <==> Before(a, b)
  {
    if p == [] {
      assert p + a == a && p + b == b;
    } else {
      assert (p + a)[1..] == p[1..] + a && (p + b)[1..] == p[1..] + b;
      BeforeAfterPrefix(p[1..], a, b);
    }
  }

  lemma {:induction false} BeforeWithSuffix(a: string, b: string, x: string, y: string)
    requires Before(a, b) && |a| == |b|
    ensures Before(a + x, b + y)
  {
    assert (a + x)[1..] == a[1..] + x && (b + y)[1..] == b[1..] + y;
    if a[0] == b[0] { BeforeWithSuffix(a[1..], b[1..], x, y); }
  }

  /** Numbers with the same number of digits are ordered as their decimals are. */
  lemma {:induction false} SameDigits(a: nat, b: nat)
    requires a < b && |Decimal(a)| == |Decimal(b)|
    ensures Before(Decimal(a), Decimal(b))
  {
    if b >= 10 {
      var x, y := [Digit(a % 10)], [Digit(b % 10)];
      if a / 10 < b / 10 {
        SameDigits(a / 10, b / 10);
        BeforeWithSuffix(Decimal(a / 10), Decimal(b / 10), x, y);
      } else {
        BeforeAfterPrefix(Decimal(a / 10), x, y);
      }
    }
  }

  // ---- Operations ---------------------------------------------------------------------------

  function NoteOf(id: nat, events: int): Note {
    if events == 0 then Ended(id) else Changed(id)
  }

  /** `Channel::update` of a connection's channel. */
  function Touch(s: Server, id: nat, events: int): Server
    requires id < |s.lives|
  {
    var call := P.Call(Conn(id), s.lives[id].fd, events);
    var s := s.(log := s.log + [NoteOf(id, events)]);
    if P.Passes(s.registry, call) then s.(registry := P.Update(s.registry, call)) else s.(aborted := true)
  }

  function RunAct(s: Server, act: Act): Server {
    if s.aborted || act.id >= |s.lives| then s
    else
      match act
      case Shut(id) =>
        if s.lives[id].phase == T.Connected then
          s.(lives := s.lives[id := s.lives[id].(phase := T.Disconnecting)])
        else s
      case Interest(id, writing) => Touch(s, id, if writing then READ + WRITE else READ)
  }

  function RunScript(s: Server, script: Script): Server
    decreases |script|
  {
    if script == [] then s else RunScript(RunAct(s, script[0]), script[1..])
  }

  function NewLife(name: string, fd: int): Life {
    Life(name, fd, T.Connected, true, 0, [T.Connected])
  }

  /** The new-connection callback: the constructor registers the channel, `ConnectEstablished`
      runs the connection callback. */
  function AcceptConnection(s: Server, fd: int, onConnected: Script): Server {
    var id := |s.lives|;
    var name := ConnName(s.name, id);
    var call := P.Call(Conn(id), fd, READ);
    var s := s.(log := s.log + [Began(id)]);
    if !P.Passes(s.registry, call) then s.(aborted := true)
    else
      RunScript(s.(registry := P.Update(s.registry, call), connections := s.connections[name := id],
                   lives := s.lives + [NewLife(name, fd)]),
                onConnected)
  }

  /** `DisbaleAll`. */
  function Deregister(s: Server, id: nat): Server
    requires id < |s.lives|
  {
    var s := Touch(s, id, 0);
    if s.aborted then s
    else
      s.(lives := s.lives[id := s.lives[id].(registered := false,
                                             deregistrations := s.lives[id].deregistrations + 1)])
  }

  /** The state set and the user told. */
  function Over(life: Life): Life {
    life.(phase := T.Disconnected, userCalls := life.userCalls + [T.Disconnected])
  }

  predicate Live(life: Life) { life.phase == T.Connected || life.phase == T.Disconnecting }

  function ConnectDestroyed(s: Server, id: nat, onDestroyed: Script): Server
    requires id < |s.lives| && !s.aborted
  {
    var s := if Live(s.lives[id]) then Deregister(s, id) else s;
    if s.aborted then s else RunScript(s.(lives := s.lives[id := Over(s.lives[id])]), onDestroyed)
  }

  /** The asserts on the way of `HandleClose` beside those of the poller. */
  predicate CanClose(s: Server, id: nat) {
    id < |s.lives| && Live(s.lives[id]) && s.lives[id].name in s.connections
  }

  function HandleClose(s: Server, id: nat, onDestroyed: Script): Server
    requires id < |s.lives|
  {
    var s := Deregister(s, id);
    if s.aborted then s
    else
      ConnectDestroyed(s.(connections := s.connections - {s.lives[id].name},
                          lives := s.lives[id := s.lives[id].(phase := T.Disconnected)]),
                       id, onDestroyed)
  }

  /** `Channel::HandleEvent` and `HandleRead`: a hang-up closes and returns; otherwise a read of
      zero bytes closes. The write event that may follow finds write interest off. */
  predicate Closes(events: Events) {
    events.hangUp || (events.readable && events.received == 0)
  }

  function HandleEvent(s: Server, id: nat, events: Events, onMessage: Script, onDestroyed: Script): Server
    requires id < |s.lives|
  {
    if Closes(events) then HandleClose(s, id, onDestroyed)
    else if events.readable && events.received > 0 then RunScript(s, onMessage)
    else s
  }

  function InsertByName(lives: seq<Life>, id: nat, order: seq<nat>): seq<nat>
    requires id < |lives| && forall i :: 0 <= i < |order| ==> order[i] < |lives|
  {
    if order == [] || Before(lives[id].name, lives[order[0]].name) then [id] + order
    else [order[0]] + InsertByName(lives, id, order[1..])
  }

  /** The first `n` connections, as far as they are in the map, in the order of their names. */
  function MapOrder(lives: seq<Life>, connections: map<string, nat>, n: nat): (order: seq<nat>)
    requires n <= |lives|
    ensures forall id: nat :: id in order <==> id < n && lives[id].name in connections
  {
    if n == 0 then []
    else if lives[n - 1].name in connections then
      var order := MapOrder(lives, connections, n - 1);
      assert forall i :: 0 <= i < |order| ==> order[i] in order;
      InsertIn(lives, n - 1, order);
      InsertByName(lives, n - 1, order)
    else MapOrder(lives, connections, n - 1)
  }

  /** The order of the destructor's loop. */
  function SweepOrder(s: Server): seq<nat> { MapOrder(s.lives, s.connections, |s.lives|) }

  lemma {:induction false} InsertIn(lives: seq<Life>, id: nat, order: seq<nat>)
    requires id < |lives| && forall i :: 0 <= i < |order| ==> order[i] < |lives|
    ensures forall k: nat :: k in InsertByName(lives, id, order) <==> k == id || k in order
  {
    if !(order == [] || Before(lives[id].name, lives[order[0]].name)) {
      InsertIn(lives, id, order[1..]);
      assert order == [order[0]] + order[1..];
    }
  }

  function First(scripts: seq<Script>): Script { if scripts == [] then [] else scripts[0] }

  function Rest(scripts: seq<Script>): seq<Script> { if scripts == [] then [] else scripts[1..] }

  /** The destructor's loop: an entry gives its connection away and the connection is destroyed. */
  function Sweep(s: Server, order: seq<nat>, scripts: seq<Script>): Server
    decreases |order|
  {
    if order == [] || s.aborted || order[0] >= |s.lives| then s
    else
      var id := order[0];
      Sweep(ConnectDestroyed(s.(connections := s.connections - {s.lives[id].name}), id, First(scripts)),
            order[1..], Rest(scripts))
  }

  /** Only registered channels have events, and the system hands out no descriptor that a
      registered channel still holds. */
  function Step(s: Server, op: Op): Server {
    if s.aborted then s
    else
      match op
      case Accept(fd, onConnected) =>
        if fd >= 0 && fd !in s.registry.channels then AcceptConnection(s, fd, onConnected) else s
      case Event(id, events, onMessage, onDestroyed) =>
        if id < |s.lives| && s.lives[id].registered then HandleEvent(s, id, events, onMessage, onDestroyed) else s
      case Do(act) => RunAct(s, act)
      case Destroy(scripts) => Sweep(s, SweepOrder(s), scripts)
  }

  function Run(s: Server, ops: seq<Op>): Server {
    if ops == [] then s else Step(Run(s, ops[..|ops| - 1]), ops[|ops| - 1])
  }

  /** A server on a loop whose poller holds other channels. */
  function Start(name: string, registry: P.Registry<Chan>): Server {
    Server(name, map[], [], registry, [], false)
  }

  ghost predicate FreshLoop(registry: P.Registry<Chan>) {
    P.Inv(registry) && forall ch :: ch in registry.index ==> ch.Other?
  }

  // ---- Which updates pass -------------------------------------------------------------------

  /** Read backwards, the history has the beginning of the connection before any end of it or of
      an older one. */
  predicate Clean(log: seq<Note>, id: nat) {
    log != [] &&
    var last := log[|log| - 1];
    (last == Began(id) || (!(last.Ended? && last.id <= id) && Clean(log[..|log| - 1], id)))
  }

  /** Every change and every end in the history found its connection so. */
  predicate Legal(log: seq<Note>) {
    log == [] ||
    var last := log[|log| - 1];
    Legal(log[..|log| - 1]) && (last.Began? || Clean(log[..|log| - 1], last.id))
  }

  lemma LogSnoc(log: seq<Note>, note: Note)
    ensures Legal(log + [note]) <==> Legal(log) && (note.Began? || Clean(log, note.id))
    ensures forall id :: Clean(log + [note], id) <==>
              note == Began(id) || (Clean(log, id) && !(note.Ended? && note.id <= id))
  {
    assert (log + [note])[..|log|] == log;
  }

  /** Each channel in the poller is a registered connection's or a foreign one. */
  ghost predicate Owned(s: Server) {
    && (forall f :: f in s.registry.channels && s.registry.channels[f].Conn? ==>
          var id := s.registry.channels[f].id;
          id < |s.lives| && s.lives[id].registered && s.lives[id].fd == f)
    && (forall id :: 0 <= id < |s.lives| && s.lives[id].registered ==>
          s.lives[id].fd in s.registry.channels && s.registry.channels[s.lives[id].fd] == Conn(id))
    && (forall id :: 0 <= id < |s.lives| ==> s.lives[id].fd >= 0)
    && (forall id: nat :: Conn(id) in s.registry.index <==> id < |s.lives|)
  }

  /** The connections' entries are in the order they were accepted, above all others. */
  ghost predicate Ordered(r: P.Registry<Chan>)
    requires P.Consistent(r)
  {
    forall p, q :: 0 <= p < q < |r.pollfds| && P.At(r, p).Conn? ==>
      P.At(r, q).Conn? && P.At(r, p).id < P.At(r, q).id
  }

  /** A connection's index is right exactly while the history is clean for it. */
  ghost predicate Right(r: P.Registry<Chan>, log: seq<Note>)
    requires P.Inv(r)
  {
    forall p :: 0 <= p < |r.pollfds| && P.At(r, p).Conn? ==>
      (r.index[P.At(r, p)] == p <==> Clean(log, P.At(r, p).id))
  }

  /** The history of a connection that is over is not clean for it. */
  ghost predicate DeadAreUnclean(s: Server) {
    forall id :: 0 <= id < |s.lives| && !s.lives[id].registered ==> !Clean(s.log, id)
  }

  ghost predicate PollInv(s: Server) {
    && P.Inv(s.registry) && Ordered(s.registry) && Right(s.registry, s.log)
    && Owned(s) && DeadAreUnclean(s)
  }

  /** The asserts of the poller pass for a connection exactly when its history is clean. */
  lemma PassesWhenClean(s: Server, id: nat, events: int)
    requires PollInv(s) && id < |s.lives|
    ensures P.Passes(s.registry, P.Call(Conn(id), s.lives[id].fd, events)) <==> Clean(s.log, id)
    ensures Clean(s.log, id) ==> s.lives[id].registered
  {
    var r, fd := s.registry, s.lives[id].fd;
    if s.lives[id].registered {
      var p :| 0 <= p < |r.pollfds| && r.pollfds[p].fd == fd;
      assert P.At(r, p) == Conn(id);
      P.PassesWhenIndexed(r, p, events);
    } else {
      assert Conn(id) in r.index;
    }
  }

  lemma ChangeKeepsPoll(s: Server, id: nat, events: int)
    requires PollInv(s) && id < |s.lives| && Clean(s.log, id) && events != 0
    ensures PollInv(Touch(s, id, events))
  {
    PassesWhenClean(s, id, events);
    var call := P.Call(Conn(id), s.lives[id].fd, events);
    P.ChangeKeeps(s.registry, call);
    LogSnoc(s.log, Changed(id));
    var d := Touch(s, id, events);
    assert d.registry.channels == s.registry.channels;
    hide P.Update;
    hide P.Passes;
    hide P.Inv;
    hide Clean;
  }

  /** Where an entry stood before a removal. */
  lemma EndShifts(r: P.Registry<Chan>, call: P.Call<Chan>, p: nat)
    requires P.Inv(r) && call.fd >= 0 && call.events == 0 && call.ch in r.index && P.Passes(r, call)
    requires p < |P.Update(r, call).pollfds|
    ensures var d, idx := P.Update(r, call), r.index[call.ch];
            var was := if p < idx then p else p + 1;
            && P.Inv(d) && d.index == r.index && was < |r.pollfds| && 0 <= idx < |r.pollfds|
            && P.At(d, p) == P.At(r, was) && P.At(r, idx) == call.ch && was <= r.index[P.At(r, was)]
  {
    P.RemovalKeeps(r, call);
    P.RemovalShifts(r, call);
    assert P.At(r, r.index[call.ch]) == call.ch;
    hide P.Update;
  }

  lemma EndKeepsSorted(r: P.Registry<Chan>, call: P.Call<Chan>)
    requires P.Inv(r) && Ordered(r)
    requires call.fd >= 0 && call.events == 0 && call.ch in r.index && P.Passes(r, call)
    ensures P.Inv(P.Update(r, call)) && Ordered(P.Update(r, call))
  {
    P.RemovalKeeps(r, call);
    var d := P.Update(r, call);
    hide P.Update;
    hide P.Passes;
    hide P.Inv;
    hide P.At;
    forall p, q | 0 <= p < q < |d.pollfds| && P.At(d, p).Conn?
      ensures P.At(d, q).Conn? && P.At(d, p).id < P.At(d, q).id
    {
      EndShifts(r, call, p);
      EndShifts(r, call, q);
    }
  }

  lemma EndKeepsRight(r: P.Registry<Chan>, log: seq<Note>, call: P.Call<Chan>, p: nat)
    requires P.Inv(r) && Ordered(r) && Right(r, log)
    requires call.ch.Conn? && call.fd >= 0 && call.events == 0 && call.ch in r.index && P.Passes(r, call)
    requires P.Inv(P.Update(r, call)) && p < |P.Update(r, call).pollfds| && P.At(P.Update(r, call), p).Conn?
    ensures var d := P.Update(r, call);
            d.index[P.At(d, p)] == p <==> Clean(log + [Ended(call.ch.id)], P.At(d, p).id)
  {
    LogSnoc(log, Ended(call.ch.id));
    EndShifts(r, call, p);
    hide P.Update;
    hide P.Passes;
    hide P.Inv;
    hide P.At;
    hide Clean;
  }

  lemma EndKeepsOrder(r: P.Registry<Chan>, log: seq<Note>, call: P.Call<Chan>)
    requires P.Inv(r) && Ordered(r) && Right(r, log)
    requires call.ch.Conn? && call.fd >= 0 && call.events == 0 && call.ch in r.index && P.Passes(r, call)
    ensures P.Inv(P.Update(r, call)) && Ordered(P.Update(r, call))
    ensures Right(P.Update(r, call), log + [Ended(call.ch.id)])
  {
    EndKeepsSorted(r, call);
    var d := P.Update(r, call);
    hide P.Update;
    hide P.Passes;
    hide P.Inv;
    hide P.At;
    hide Clean;
    hide Ordered;
    forall p | 0 <= p < |d.pollfds| && P.At(d, p).Conn?
      ensures d.index[P.At(d, p)] == p <==> Clean(log + [Ended(call.ch.id)], P.At(d, p).id)
    {
      EndKeepsRight(r, log, call, p);
    }
  }

  lemma EndKeepsPoll(s: Server, id: nat)
    requires PollInv(s) && id < |s.lives| && Clean(s.log, id) && !s.aborted
    ensures !Deregister(s, id).aborted && PollInv(Deregister(s, id))
  {
    PassesWhenClean(s, id, 0);
    var fd := s.lives[id].fd;
    var call := P.Call(Conn(id), fd, 0);
    EndKeepsOrder(s.registry, s.log, call);
    LogSnoc(s.log, Ended(id));
    var d := Deregister(s, id);
    assert d.registry.channels == s.registry.channels - {fd} && d.registry.index == s.registry.index;
    hide P.Update;
    hide P.Passes;
    hide P.Inv;
    hide Clean;
    hide Ordered;
    hide Right;
  }

  lemma BeginKeepsOrder(r: P.Registry<Chan>, log: seq<Note>, call: P.Call<Chan>)
    requires P.Inv(r) && Ordered(r) && Right(r, log)
    requires call.ch.Conn? && call.fd >= 0 && call.ch !in r.index && P.Passes(r, call)
    requires forall id: nat :: Conn(id) in r.index ==> id < call.ch.id
    ensures P.Inv(P.Update(r, call)) && Ordered(P.Update(r, call))
    ensures Right(P.Update(r, call), log + [Began(call.ch.id)])
  {
    P.RegisterKeeps(r, call);
    P.RegisterConsistent(r, call);
    LogSnoc(log, Began(call.ch.id));
    var d := P.Update(r, call);
    var n := |r.pollfds|;
    assert d.index == r.index[call.ch := n] && |d.pollfds| == n + 1;
    hide P.Update;
    hide P.Passes;
    hide P.Consistent;
    hide Clean;
    forall p | 0 <= p < n
      ensures P.At(d, p) == P.At(r, p) && P.At(d, p) in r.index && P.At(d, p) != call.ch
    {
      assert P.At(r, p) in r.index;
    }
  }

  // ---- The invariant ------------------------------------------------------------------------

  /** A connection is alive, with one user callback behind it, or over, deregistered once and
      with two. */
  predicate Sound(life: Life) {
    if life.registered then
      Live(life) && life.deregistrations == 0 && life.userCalls == [T.Connected]
    else
      && life.phase == T.Disconnected
      && life.deregistrations == 1 && life.userCalls == [T.Connected, T.Disconnected]
  }

  ghost predicate LivesInv(s: Server) {
    forall i :: 0 <= i < |s.lives| ==> Sound(s.lives[i]) && s.lives[i].name == ConnName(s.name, i)
  }

  /** The map holds exactly the connections that are alive, each under its name. */
  ghost predicate MapInv(s: Server) {
    && (forall i :: 0 <= i < |s.lives| ==> (s.lives[i].registered <==> s.lives[i].name in s.connections))
    && (forall n :: n in s.connections ==>
          s.connections[n] < |s.lives| && s.lives[s.connections[n]].name == n)
  }

  /** An assert has fired exactly when the history is not legal; otherwise map and poller hold
      exactly the connections that are alive. */
  ghost predicate Inv(s: Server) {
    && LivesInv(s)
    && (s.aborted <==> !Legal(s.log))
    && (!s.aborted ==> MapInv(s) && PollInv(s))
  }

  function Rank(phase: T.Phase): nat {
    match phase
    case Connecting => 0
    case Connected => 1
    case Disconnecting => 2
    case Disconnected => 3
  }

  /** No connection disappears, goes back or gets another descriptor. */
  ghost predicate Forward(s: Server, d: Server) {
    && |s.lives| <= |d.lives|
    && forall i :: 0 <= i < |s.lives| ==>
         Rank(s.lives[i].phase) <= Rank(d.lives[i].phase) && d.lives[i].fd == s.lives[i].fd
  }

  /** What a callback leaves as it was: all but the beginning of a half-close. */
  ghost predicate Nudged(a: Life, b: Life) {
    b == a || (a.phase == T.Connected && b == a.(phase := T.Disconnecting))
  }

  ghost predicate Alike(s: Server, d: Server) {
    && d.name == s.name && d.connections == s.connections && |d.lives| == |s.lives|
    && (forall i :: 0 <= i < |s.lives| ==> Nudged(s.lives[i], d.lives[i]))
    && (forall id :: Clean(d.log, id) == Clean(s.log, id) || d.aborted)
    && (s.aborted ==> d.aborted)
  }

  lemma ForwardThrough(s: Server, d: Server, e: Server)
    requires Forward(s, d) && Alike(d, e)
    ensures Forward(s, e)
  {
    hide Clean;
  }

  /** `PollInv` looks at no more of a life than its descriptor and whether it is registered. */
  lemma PollFrame(s: Server, d: Server)
    requires PollInv(s) && d.registry == s.registry && d.log == s.log && |d.lives| == |s.lives|
    requires forall i :: 0 <= i < |s.lives| ==>
               d.lives[i].registered == s.lives[i].registered && d.lives[i].fd == s.lives[i].fd
    ensures PollInv(d)
  {
    hide P.Inv;
    hide Clean;
    hide Ordered;
    hide Right;
  }

  lemma NudgedKeeps(s: Server, d: Server)
    requires Inv(s) && Alike(s, d) && d.registry == s.registry && d.log == s.log && d.aborted == s.aborted
    ensures Inv(d)
  {
    if !s.aborted { PollFrame(s, d); }
    hide PollInv;
    hide Legal;
    hide Clean;
    hide ConnName;
    assert forall i :: 0 <= i < |s.lives| ==>
      Nudged(s.lives[i], d.lives[i]) && Sound(s.lives[i]) && Sound(d.lives[i]) && d.lives[i].name == s.lives[i].name;
  }

  lemma TouchFields(s: Server, id: nat, events: int)
    requires PollInv(s) && id < |s.lives|
    ensures var d := Touch(s, id, events);
            && d.name == s.name && d.lives == s.lives && d.connections == s.connections
            && d.log == s.log + [NoteOf(id, events)]
            && (d.aborted <==> s.aborted || !Clean(s.log, id))
  {
    PassesWhenClean(s, id, events);
    hide PollInv;
    hide Clean;
    hide P.Passes;
    hide P.Update;
  }

  lemma InterestAlike(s: Server, d: Server, id: nat)
    requires d.name == s.name && d.lives == s.lives && d.connections == s.connections
    requires d.log == s.log + [Changed(id)] && !s.aborted
    ensures Alike(s, d)
  {
    LogSnoc(s.log, Changed(id));
    hide Clean;
  }

  lemma InterestKeeps(s: Server, id: nat, events: int)
    requires Inv(s) && !s.aborted && id < |s.lives| && events != 0
    ensures Inv(Touch(s, id, events)) && Alike(s, Touch(s, id, events))
  {
    LogSnoc(s.log, Changed(id));
    TouchFields(s, id, events);
    InterestAlike(s, Touch(s, id, events), id);
    if Clean(s.log, id) { ChangeKeepsPoll(s, id, events); }
    hide PollInv;
    hide Legal;
    hide Clean;
    hide ConnName;
    hide Touch;
    hide Alike;
  }

  lemma ActKeeps(s: Server, act: Act)
    requires Inv(s)
    ensures Inv(RunAct(s, act)) && Alike(s, RunAct(s, act))
  {
    if !s.aborted && act.id < |s.lives| && act.Interest? {
      InterestKeeps(s, act.id, if act.writing then READ + WRITE else READ);
    } else {
      var d := RunAct(s, act);
      hide Inv;
      hide Clean;
      assert Alike(s, d);
      NudgedKeeps(s, d);
    }
  }

  lemma AlikeTwice(s: Server, d: Server, e: Server)
    requires Alike(s, d) && Alike(d, e)
    ensures Alike(s, e)
  {
    hide Clean;
  }

  lemma {:induction false} ScriptKeeps(s: Server, script: Script)
    requires Inv(s)
    ensures Inv(RunScript(s, script)) && Alike(s, RunScript(s, script))
    decreases |script|
  {
    hide Inv;
    if script == [] {
      hide Clean;
    } else {
      hide Alike;
      ActKeeps(s, script[0]);
      ScriptKeeps(RunAct(s, script[0]), script[1..]);
      AlikeTwice(s, RunAct(s, script[0]), RunScript(s, script));
    }
  }

  /** The callback changes the interest only of connections that are clean and numbered below
      `bound`. */
  predicate Tame(s: Server, script: Script, bound: nat) {
    forall i :: 0 <= i < |script| && script[i].Interest? && script[i].id < |s.lives| ==>
      script[i].id < bound && Clean(s.log, script[i].id)
  }

  lemma ActAborts(s: Server, act: Act)
    requires Inv(s) && !s.aborted
    ensures RunAct(s, act).aborted <==> act.Interest? && act.id < |s.lives| && !Clean(s.log, act.id)
  {
    if act.Interest? && act.id < |s.lives| {
      PassesWhenClean(s, act.id, if act.writing then READ + WRITE else READ);
    }
    hide Inv;
    hide Clean;
    hide P.Passes;
    hide P.Update;
  }

  lemma TameRest(s: Server, d: Server, script: Script)
    requires script != [] && Alike(s, d) && !d.aborted
    ensures Tame(s, script, |s.lives|) <==> Tame(s, script[..1], |s.lives|) && Tame(d, script[1..], |d.lives|)
  {
    hide Clean;
    var rest := script[1..];
    assert forall i :: 0 <= i < |rest| ==> rest[i] == script[i + 1];
    if Tame(s, script[..1], |s.lives|) && Tame(d, rest, |d.lives|) {
      forall i | 0 <= i < |script| && script[i].Interest? && script[i].id < |s.lives|
        ensures Clean(s.log, script[i].id)
      {
        assert script[i] == if i == 0 then script[..1][0] else rest[i - 1];
      }
    }
  }

  /** A callback trips an assert exactly when it changes a connection that is not clean. */
  lemma {:induction false} ScriptAbortsWhen(s: Server, script: Script)
    requires Inv(s) && !s.aborted
    ensures RunScript(s, script).aborted <==> !Tame(s, script, |s.lives|)
    decreases |script|
  {
    hide Inv;
    hide Clean;
    if script != [] {
      var d := RunAct(s, script[0]);
      ActAborts(s, script[0]);
      ActKeeps(s, script[0]);
      hide RunAct;
      hide Alike;
      assert script[..1][0] == script[0];
      if d.aborted {
        StaysAborted(d, script[1..]);
      } else {
        TameRest(s, d, script);
        ScriptAbortsWhen(d, script[1..]);
      }
    }
  }

  lemma {:induction false} StaysAborted(s: Server, script: Script)
    requires s.aborted
    ensures RunScript(s, script).aborted
    decreases |script|
  {
    if script != [] { StaysAborted(RunAct(s, script[0]), script[1..]); }
  }

  lemma NameIsNew(s: Server)
    requires LivesInv(s) && MapInv(s)
    ensures ConnName(s.name, |s.lives|) !in s.connections
  {
    var name := ConnName(s.name, |s.lives|);
    if name in s.connections {
      NamesAreDistinct(s.name, |s.lives|, s.connections[name]);
    }
  }

  /** The state at the connection callback of `AcceptConnection`. */
  ghost function Accepted(s: Server, fd: int): Server
    requires P.Passes(s.registry, P.Call(Conn(|s.lives|), fd, READ))
  {
    var id := |s.lives|;
    var name := ConnName(s.name, id);
    s.(log := s.log + [Began(id)], registry := P.Update(s.registry, P.Call(Conn(id), fd, READ)),
       connections := s.connections[name := id], lives := s.lives + [NewLife(name, fd)])
  }

  lemma BeginKeepsPoll(s: Server, fd: int)
    requires PollInv(s) && fd >= 0 && fd !in s.registry.channels
    ensures P.Passes(s.registry, P.Call(Conn(|s.lives|), fd, READ)) && PollInv(Accepted(s, fd))
  {
    var id := |s.lives|;
    var call := P.Call(Conn(id), fd, READ);
    BeginKeepsOrder(s.registry, s.log, call);
    LogSnoc(s.log, Began(id));
    var d := Accepted(s, fd);
    assert d.registry.channels == s.registry.channels[fd := Conn(id)];
    assert d.registry.index == s.registry.index[Conn(id) := |s.registry.pollfds|];
    hide P.Update;
    hide P.Inv;
    hide Clean;
    hide Ordered;
    hide Right;
    hide ConnName;
  }

  lemma AcceptedKeeps(s: Server, fd: int)
    requires Inv(s) && !s.aborted && fd >= 0 && fd !in s.registry.channels
    ensures P.Passes(s.registry, P.Call(Conn(|s.lives|), fd, READ))
    ensures Inv(Accepted(s, fd)) && Forward(s, Accepted(s, fd))
  {
    BeginKeepsPoll(s, fd);
    LogSnoc(s.log, Began(|s.lives|));
    NameIsNew(s);
    hide PollInv;
    hide Legal;
    hide Clean;
    hide P.Update;
    hide P.Passes;
    var d := Accepted(s, fd);
    var n := |s.lives|;
    forall i | 0 <= i < n
      ensures s.lives[i].name != ConnName(s.name, n)
    {
      if s.lives[i].name == ConnName(s.name, n) { NamesAreDistinct(s.name, i, n); }
    }
    hide ConnName;
  }

  lemma AcceptKeeps(s: Server, fd: int, onConnected: Script)
    requires Inv(s) && !s.aborted && fd >= 0 && fd !in s.registry.channels
    ensures Inv(AcceptConnection(s, fd, onConnected)) && Forward(s, AcceptConnection(s, fd, onConnected))
    ensures var d := AcceptConnection(s, fd, onConnected);
            |d.lives| == |s.lives| + 1 && d.lives[|s.lives|].fd == fd
  {
    AcceptedKeeps(s, fd);
    var d := Accepted(s, fd);
    assert AcceptConnection(s, fd, onConnected) == RunScript(d, onConnected);
    assert |d.lives| == |s.lives| + 1 && d.lives[|s.lives|].fd == fd;
    hide *;
    ScriptKeeps(d, onConnected);
    ForwardThrough(s, d, RunScript(d, onConnected));
    AlikeFds(d, RunScript(d, onConnected));
  }

  lemma AlikeFds(s: Server, d: Server)
    requires Alike(s, d)
    ensures |d.lives| == |s.lives| && forall i :: 0 <= i < |s.lives| ==> d.lives[i].fd == s.lives[i].fd
  {
    hide Clean;
  }

  /** The state at the last callback of a connection: out of the map, deregistered and over. */
  function Finished(s: Server, id: nat): Server
    requires id < |s.lives|
  {
    var d := Deregister(s, id);
    d.(connections := d.connections - {s.lives[id].name}, lives := d.lives[id := Over(d.lives[id])])
  }

  lemma DeregisterFails(s: Server, id: nat)
    requires Inv(s) && !s.aborted && id < |s.lives| && !Clean(s.log, id)
    ensures var d := Deregister(s, id);
            d.aborted && Inv(d) && d.lives == s.lives && d.connections == s.connections
  {
    PassesWhenClean(s, id, 0);
    LogSnoc(s.log, Ended(id));
    hide PollInv;
    hide Clean;
    hide Legal;
    hide P.Passes;
  }

  lemma FinishedFields(s: Server, id: nat)
    requires PollInv(s) && !s.aborted && id < |s.lives| && Clean(s.log, id)
    ensures var d := Finished(s, id);
            && !Deregister(s, id).aborted && !d.aborted && s.lives[id].registered
            && d.name == s.name && d.log == s.log + [Ended(id)]
            && d.connections == s.connections - {s.lives[id].name}
            && d.lives == s.lives[id := Over(s.lives[id].(registered := false,
                                             deregistrations := s.lives[id].deregistrations + 1))]
            && PollInv(d)
  {
    PassesWhenClean(s, id, 0);
    EndKeepsPoll(s, id);
    PollFrame(Deregister(s, id), Finished(s, id));
    hide PollInv;
    hide Clean;
    hide P.Passes;
    hide P.Update;
  }

  lemma EntryErased(s: Server, id: nat, d: Server)
    requires LivesInv(s) && MapInv(s) && id < |s.lives| && s.lives[id].registered
    requires d.name == s.name && d.connections == s.connections - {s.lives[id].name}
    requires d.lives == s.lives[id := Over(s.lives[id].(registered := false,
                                           deregistrations := s.lives[id].deregistrations + 1))]
    ensures LivesInv(d) && MapInv(d) && Forward(s, d) && |d.connections| == |s.connections| - 1
  {
    forall i | 0 <= i < |s.lives| && i != id
      ensures s.lives[i].name != s.lives[id].name
    {
      if s.lives[i].name == s.lives[id].name { NamesAreDistinct(s.name, i, id); }
    }
    hide ConnName;
    assert d.connections.Keys == s.connections.Keys - {s.lives[id].name};
    assert Sound(s.lives[id]) && Sound(d.lives[id]);
  }

  lemma FinishedKeeps(s: Server, id: nat)
    requires Inv(s) && !s.aborted && id < |s.lives| && Clean(s.log, id)
    ensures !Deregister(s, id).aborted
    ensures Inv(Finished(s, id)) && Forward(s, Finished(s, id)) && !Finished(s, id).aborted
    ensures |Finished(s, id).connections| == |s.connections| - 1
  {
    FinishedFields(s, id);
    LogSnoc(s.log, Ended(id));
    hide PollInv;
    hide Clean;
    hide Legal;
    hide Finished;
    hide Deregister;
    hide Forward;
    EntryErased(s, id, Finished(s, id));
    hide LivesInv;
    hide MapInv;
  }

  lemma TameAfterEnd(s: Server, d: Server, id: nat, script: Script)
    requires d.log == s.log + [Ended(id)] && |d.lives| == |s.lives|
    ensures Tame(d, script, |d.lives|) <==> Tame(s, script, id)
  {
    LogSnoc(s.log, Ended(id));
    hide Clean;
  }

  /** The last callback of a connection trips an assert exactly when it changes a connection that
      is not clean, or one as new as the one that has just ended. */
  lemma FinishedAbortsWhen(s: Server, id: nat, script: Script)
    requires Inv(s) && !s.aborted && id < |s.lives| && Clean(s.log, id)
    ensures RunScript(Finished(s, id), script).aborted <==> !Tame(s, script, id)
  {
    assert PollInv(s);
    hide *;
    FinishedFields(s, id);
    FinishedKeeps(s, id);
    ScriptAbortsWhen(Finished(s, id), script);
    TameAfterEnd(s, Finished(s, id), id, script);
  }

  lemma CloseFinishes(s: Server, id: nat, onDestroyed: Script)
    requires PollInv(s) && !s.aborted && id < |s.lives| && Clean(s.log, id)
    ensures HandleClose(s, id, onDestroyed) == RunScript(Finished(s, id), onDestroyed)
  {
    EndKeepsPoll(s, id);
    hide PollInv;
    hide Clean;
    hide Touch;
    hide RunScript;
    var d := Deregister(s, id);
    assert d.lives[id := d.lives[id].(phase := T.Disconnected)][id := Over(d.lives[id])]
           == d.lives[id := Over(d.lives[id])];
  }

  lemma CloseWhenClean(s: Server, id: nat, onDestroyed: Script)
    requires Inv(s) && PollInv(s) && !s.aborted && id < |s.lives| && Clean(s.log, id)
    ensures var d := HandleClose(s, id, onDestroyed);
            && Inv(d) && Forward(s, d) && Alike(Finished(s, id), d)
            && (d.aborted <==> !Tame(s, onDestroyed, id))
  {
    hide *;
    FinishedKeeps(s, id);
    CloseFinishes(s, id, onDestroyed);
    ScriptKeeps(Finished(s, id), onDestroyed);
    FinishedAbortsWhen(s, id, onDestroyed);
    ForwardThrough(s, Finished(s, id), HandleClose(s, id, onDestroyed));
  }

  lemma CloseWhenUnclean(s: Server, id: nat, onDestroyed: Script)
    requires Inv(s) && !s.aborted && id < |s.lives| && !Clean(s.log, id)
    ensures var d := HandleClose(s, id, onDestroyed);
            d.aborted && Inv(d) && Forward(s, d) && d.connections == s.connections && d.lives == s.lives
  {
    DeregisterFails(s, id);
    hide Inv;
    hide Clean;
    hide Deregister;
  }

  lemma FinishedSeen(s: Server, id: nat, d: Server)
    requires PollInv(s) && !s.aborted && id < |s.lives| && Clean(s.log, id) && Alike(Finished(s, id), d)
    ensures d.connections == s.connections - {s.lives[id].name} == Finished(s, id).connections
    ensures |d.lives| == |s.lives| && !d.lives[id].registered
  {
    FinishedFields(s, id);
    hide PollInv;
    hide Clean;
    hide Finished;
    hide Deregister;
  }

  lemma LiveCanClose(s: Server, id: nat)
    requires Inv(s) && !s.aborted && id < |s.lives| && s.lives[id].registered
    ensures CanClose(s, id) && PollInv(s)
  {
    assert Sound(s.lives[id]);
  }

  /** A close passes its asserts exactly when no connection as old as this one has ended since it
      was accepted, and its callback changes only connections older still of which the same is
      true. It then erases exactly one entry of the map, and the connection is over. */
  lemma CloseErasesOne(s: Server, id: nat, onDestroyed: Script)
    requires Inv(s) && !s.aborted && id < |s.lives| && s.lives[id].registered
    ensures CanClose(s, id)
    ensures var d := HandleClose(s, id, onDestroyed);
            && Inv(d) && Forward(s, d)
            && (d.aborted <==> !(Clean(s.log, id) && Tame(s, onDestroyed, id)))
            && if Clean(s.log, id) then
                 && d.connections == s.connections - {s.lives[id].name}
                 && |d.connections| == |s.connections| - 1
                 && |d.lives| == |s.lives| && !d.lives[id].registered
               else d.aborted && d.connections == s.connections && d.lives == s.lives
  {
    hide *;
    LiveCanClose(s, id);
    if Clean(s.log, id) {
      CloseWhenClean(s, id, onDestroyed);
      FinishedSeen(s, id, HandleClose(s, id, onDestroyed));
      FinishedKeeps(s, id);
    } else {
      CloseWhenUnclean(s, id, onDestroyed);
    }
  }

  // ---- The destructor -----------------------------------------------------------------------

  /** One round of the destructor's loop. */
  function SweepOne(s: Server, id: nat, script: Script): Server
    requires id < |s.lives| && !s.aborted
  {
    ConnectDestroyed(s.(connections := s.connections - {s.lives[id].name}), id, script)
  }

  lemma SweepFails(s: Server, id: nat, script: Script)
    requires Inv(s) && !s.aborted && id < |s.lives| && s.lives[id].registered && !Clean(s.log, id)
    ensures var d := SweepOne(s, id, script); d.aborted && Inv(d) && d.lives == s.lives
  {
    assert Sound(s.lives[id]);
    PassesWhenClean(s, id, 0);
    LogSnoc(s.log, Ended(id));
    hide PollInv;
    hide Clean;
    hide Legal;
    hide P.Passes;
  }

  lemma SweepFinishes(s: Server, id: nat, script: Script)
    requires PollInv(s) && !s.aborted && id < |s.lives| && Clean(s.log, id) && Live(s.lives[id])
    ensures SweepOne(s, id, script) == RunScript(Finished(s, id), script)
  {
    PassesWhenClean(s, id, 0);
    hide PollInv;
    hide Clean;
    hide RunScript;
    hide P.Passes;
    hide P.Update;
  }

  /** The connection has ended and no other has. */
  ghost predicate EndedOne(s: Server, id: nat, d: Server) {
    && |d.lives| == |s.lives|
    && (forall k: nat :: Clean(d.log, k) <==> Clean(s.log, k) && k < id)
    && (forall k :: 0 <= k < |s.lives| ==> (d.lives[k].registered <==> s.lives[k].registered && k != id))
  }

  lemma FinishedEndsOne(s: Server, id: nat, d: Server)
    requires PollInv(s) && !s.aborted && id < |s.lives| && Clean(s.log, id)
    requires Alike(Finished(s, id), d) && !d.aborted
    ensures EndedOne(s, id, d)
  {
    var e := Finished(s, id);
    FinishedFields(s, id);
    LogSnoc(s.log, Ended(id));
    hide PollInv;
    hide Clean;
    hide Finished;
    hide Deregister;
    assert forall k :: 0 <= k < |s.lives| ==> d.lives[k].registered == e.lives[k].registered;
  }

  lemma SweepOneKeeps(s: Server, id: nat, script: Script)
    requires Inv(s) && !s.aborted && id < |s.lives| && s.lives[id].registered
    ensures var d := SweepOne(s, id, script);
            && Inv(d) && Forward(s, d) && |d.lives| == |s.lives|
            && (d.aborted <==> !(Clean(s.log, id) && Tame(s, script, id)))
            && (!d.aborted ==> EndedOne(s, id, d))
  {
    assert Sound(s.lives[id]);
    if Clean(s.log, id) {
      var d := Finished(s, id);
      FinishedFields(s, id);
      FinishedKeeps(s, id);
      SweepFinishes(s, id, script);
      ScriptKeeps(d, script);
      FinishedAbortsWhen(s, id, script);
      if !RunScript(d, script).aborted { FinishedEndsOne(s, id, RunScript(d, script)); }
      ForwardThrough(s, d, RunScript(d, script));
      hide Inv;
      hide Clean;
      hide RunScript;
      hide SweepOne;
      hide Finished;
      hide Deregister;
      hide EndedOne;
      hide Forward;
      hide Tame;
    } else {
      SweepFails(s, id, script);
      hide Inv;
      hide Clean;
      hide SweepOne;
      hide EndedOne;
      hide Tame;
    }
  }

  predicate Descending(order: seq<nat>) { forall i, j :: 0 <= i < j < |order| ==> order[i] > order[j] }

  predicate AllClean(log: seq<Note>, order: seq<nat>) {
    forall i :: 0 <= i < |order| ==> Clean(log, order[i])
  }

  /** Each connection's callback changes only clean connections older than it. */
  predicate AllTame(s: Server, order: seq<nat>, scripts: seq<Script>) {
    forall i :: 0 <= i < |order| && i < |scripts| ==> Tame(s, scripts[i], order[i])
  }

  /** Live connections in this order, with these callbacks, can all be destroyed. */
  predicate CanSweep(s: Server, order: seq<nat>, scripts: seq<Script>) {
    AllClean(s.log, order) && Descending(order) && AllTame(s, order, scripts)
  }

  ghost predicate AreAlive(s: Server, order: seq<nat>) {
    && (forall i :: 0 <= i < |order| ==> order[i] < |s.lives| && s.lives[order[i]].registered)
    && (forall i, j :: 0 <= i < j < |order| ==> order[i] != order[j])
  }

  /** What the others need once the first has ended. */
  lemma CleanThenDescending(s: Server, d: Server, order: seq<nat>)
    requires order != [] && EndedOne(s, order[0], d)
    ensures AllClean(d.log, order[1..]) && Descending(order[1..]) && Clean(s.log, order[0]) <==>
            AllClean(s.log, order) && Descending(order)
  {
    hide Clean;
    var rest := order[1..];
    assert forall i :: 0 <= i < |rest| ==> rest[i] == order[i + 1];
    if AllClean(s.log, order) && Descending(order) {
      assert Clean(s.log, order[0]);
      forall i | 0 <= i < |rest| ensures Clean(d.log, rest[i]) { assert Clean(s.log, order[i + 1]); }
    }
    if AllClean(d.log, rest) && Descending(rest) && Clean(s.log, order[0]) {
      forall i | 0 <= i < |order| ensures Clean(s.log, order[i]) && (i > 0 ==> order[i] < order[0]) {
        if i > 0 { assert Clean(d.log, rest[i - 1]); }
      }
    }
  }

  lemma TameLater(s: Server, d: Server, id: nat, script: Script, bound: nat)
    requires EndedOne(s, id, d) && bound <= id
    ensures Tame(d, script, bound) <==> Tame(s, script, bound)
  {
    hide Clean;
  }

  lemma CanSweepRest(s: Server, d: Server, order: seq<nat>, scripts: seq<Script>)
    requires order != [] && EndedOne(s, order[0], d)
    ensures CanSweep(s, order, scripts) <==>
            Clean(s.log, order[0]) && Tame(s, First(scripts), order[0]) && CanSweep(d, order[1..], Rest(scripts))
  {
    hide Clean;
    CleanThenDescending(s, d, order);
    var rest, later := order[1..], Rest(scripts);
    hide AllClean;
    hide EndedOne;
    if Descending(order) {
      forall i | 0 <= i < |rest| && i < |later|
        ensures Tame(d, later[i], rest[i]) <==> Tame(s, scripts[i + 1], order[i + 1])
      {
        TameLater(s, d, order[0], later[i], rest[i]);
      }
      hide Tame;
      if Tame(s, First(scripts), order[0]) && AllTame(d, rest, later) {
        forall i | 0 <= i < |order| && i < |scripts| ensures Tame(s, scripts[i], order[i]) {
          assert i > 0 ==> Tame(d, later[i - 1], rest[i - 1]);
        }
      }
      if AllTame(s, order, scripts) {
        forall i | 0 <= i < |rest| && i < |later| ensures Tame(d, later[i], rest[i]) {
          assert Tame(s, scripts[i + 1], order[i + 1]);
        }
        assert scripts != [] ==> Tame(s, scripts[0], order[0]);
        NothingIsTame(s, order[0]);
      }
    }
  }

  lemma CanSweepFirst(s: Server, order: seq<nat>, scripts: seq<Script>)
    requires order != []
    ensures CanSweep(s, order, scripts) ==> Clean(s.log, order[0]) && Tame(s, First(scripts), order[0])
  {
    NothingIsTame(s, order[0]);
    hide Clean;
    hide Tame;
    assert CanSweep(s, order, scripts) ==> Clean(s.log, order[0]);
  }

  lemma NothingIsTame(s: Server, bound: nat)
    ensures Tame(s, [], bound)
  {
  }

  lemma OthersAlive(s: Server, d: Server, order: seq<nat>)
    requires order != [] && AreAlive(s, order) && EndedOne(s, order[0], d)
    ensures AreAlive(d, order[1..])
  {
    hide Clean;
    assert forall i :: 0 <= i < |order| - 1 ==> order[1..][i] == order[i + 1];
  }

  /** Of the connections alive, those in the list have ended. */
  ghost predicate EndedThese(s: Server, order: seq<nat>, d: Server) {
    && |d.lives| == |s.lives|
    && forall k :: 0 <= k < |s.lives| ==> (d.lives[k].registered <==> s.lives[k].registered && k !in order)
  }

  lemma EndedMore(s: Server, d: Server, e: Server, order: seq<nat>)
    requires order != [] && EndedOne(s, order[0], d) && EndedThese(d, order[1..], e)
    ensures EndedThese(s, order, e)
  {
    hide Clean;
    assert order == [order[0]] + order[1..];
  }

  /** In whatever order live connections are destroyed: no assert fires exactly when each of them
      is clean, the newest goes first and the oldest last, and each callback changes only clean
      connections older than its own. Then these end and the others stay as they are. */
  lemma {:induction false} SweepPassesWhen(s: Server, order: seq<nat>, scripts: seq<Script>)
    requires Inv(s) && !s.aborted && AreAlive(s, order)
    ensures var d := Sweep(s, order, scripts);
            && Inv(d) && Forward(s, d) && |d.lives| == |s.lives|
            && (!d.aborted <==> CanSweep(s, order, scripts))
            && (!d.aborted ==> EndedThese(s, order, d))
    decreases |order|, 1
  {
    hide Inv;
    hide Clean;
    if order != [] {
      var id := order[0];
      var d := SweepOne(s, id, First(scripts));
      SweepOneKeeps(s, id, First(scripts));
      assert Sweep(s, order, scripts) == Sweep(d, order[1..], Rest(scripts));
      hide SweepOne;
      if d.aborted {
        CanSweepFirst(s, order, scripts);
      } else {
        SweepRest(s, d, order, scripts);
      }
    }
  }

  lemma SweepRest(s: Server, d: Server, order: seq<nat>, scripts: seq<Script>)
    requires Inv(d) && !d.aborted && order != [] && AreAlive(s, order)
    requires Forward(s, d) && EndedOne(s, order[0], d)
    requires Clean(s.log, order[0]) && Tame(s, First(scripts), order[0])
    ensures var e := Sweep(d, order[1..], Rest(scripts));
            && Inv(e) && Forward(s, e) && |e.lives| == |d.lives|
            && (!e.aborted <==> CanSweep(s, order, scripts))
            && (!e.aborted ==> EndedThese(s, order, e))
    decreases |order|, 0
  {
    hide Inv;
    hide Clean;
    CanSweepRest(s, d, order, scripts);
    OthersAlive(s, d, order);
    SweepPassesWhen(d, order[1..], Rest(scripts));
    var e := Sweep(d, order[1..], Rest(scripts));
    if !e.aborted { EndedMore(s, d, e, order); }
    hide Sweep;
    hide CanSweep;
    hide EndedOne;
    hide EndedThese;
    hide AreAlive;
  }

  // ---- The order of the map -----------------------------------------------------------------

  ghost predicate ByName(lives: seq<Life>, order: seq<nat>) {
    && (forall i :: 0 <= i < |order| ==> order[i] < |lives|)
    && (forall i, j :: 0 <= i < j < |order| ==> Before(lives[order[i]].name, lives[order[j]].name))
  }

  lemma {:induction false} InsertSorts(lives: seq<Life>, id: nat, order: seq<nat>)
    requires id < |lives| && ByName(lives, order)
    requires forall i :: 0 <= i < |order| ==> lives[order[i]].name != lives[id].name
    ensures ByName(lives, InsertByName(lives, id, order))
  {
    InsertIn(lives, id, order);
    var out := InsertByName(lives, id, order);
    forall k | k in out ensures k < |lives| { }
    if order == [] {
    } else if Before(lives[id].name, lives[order[0]].name) {
      forall j | 0 <= j < |order| ensures Before(lives[id].name, lives[order[j]].name) {
        if j > 0 { BeforeIsTransitive(lives[id].name, lives[order[0]].name, lives[order[j]].name); }
      }
    } else {
      var rest := order[1..];
      assert forall i :: 0 <= i < |rest| ==> rest[i] == order[i + 1];
      InsertSorts(lives, id, rest);
      InsertIn(lives, id, rest);
      BeforeIsTotal(lives[id].name, lives[order[0]].name);
      var tail := InsertByName(lives, id, rest);
      forall j | 0 <= j < |tail| ensures Before(lives[order[0]].name, lives[tail[j]].name) {
        assert tail[j] in tail;
      }
    }
  }

  lemma {:induction false} MapOrderSorts(s: Server, n: nat)
    requires LivesInv(s) && n <= |s.lives|
    ensures ByName(s.lives, MapOrder(s.lives, s.connections, n))
  {
    if n > 0 {
      MapOrderSorts(s, n - 1);
      var order := MapOrder(s.lives, s.connections, n - 1);
      forall i | 0 <= i < |order| ensures s.lives[order[i]].name != s.lives[n - 1].name {
        if s.lives[order[i]].name == s.lives[n - 1].name { NamesAreDistinct(s.name, order[i], n - 1); }
      }
      hide ConnName;
      if s.lives[n - 1].name in s.connections { InsertSorts(s.lives, n - 1, order); }
    }
  }

  lemma MapOrderIsAlive(s: Server)
    requires LivesInv(s) && MapInv(s)
    ensures AreAlive(s, SweepOrder(s)) && ByName(s.lives, SweepOrder(s))
    ensures forall id :: 0 <= id < |s.lives| ==> (s.lives[id].registered <==> id in SweepOrder(s))
  {
    MapOrderSorts(s, |s.lives|);
    var order := SweepOrder(s);
    hide ConnName;
    hide MapOrder;
    forall i, j | 0 <= i < j < |order| ensures order[i] != order[j] {
      BeforeIsStrict(s.lives[order[i]].name, s.lives[order[j]].name);
    }
  }

  // ---- Whole runs ---------------------------------------------------------------------------

  lemma DestroyKeeps(s: Server, scripts: seq<Script>)
    requires Inv(s) && !s.aborted
    ensures var d := Sweep(s, SweepOrder(s), scripts); Inv(d) && Forward(s, d) && |d.lives| == |s.lives|
  {
    MapOrderIsAlive(s);
    SweepPassesWhen(s, SweepOrder(s), scripts);
    hide Inv;
    hide SweepOrder;
    hide Sweep;
  }

  lemma AlikeIsForward(s: Server, d: Server)
    requires Alike(s, d)
    ensures Forward(s, d)
  {
    hide Clean;
  }

  predicate Accepts(s: Server, op: Op) {
    op.Accept? && !s.aborted && op.fd >= 0 && op.fd !in s.registry.channels
  }

  lemma StepKeeps(s: Server, op: Op)
    requires Inv(s)
    ensures Inv(Step(s, op)) && Forward(s, Step(s, op))
    ensures var d := Step(s, op);
            if Accepts(s, op) then |d.lives| == |s.lives| + 1 && d.lives[|s.lives|].fd == op.fd
            else |d.lives| == |s.lives|
  {
    hide Inv;
    hide AcceptConnection;
    hide HandleClose;
    hide RunScript;
    hide RunAct;
    hide SweepOrder;
    hide Sweep;
    if !s.aborted {
      match op
      case Accept(fd, onConnected) =>
        if fd >= 0 && fd !in s.registry.channels { AcceptKeeps(s, fd, onConnected); }
      case Event(id, events, onMessage, onDestroyed) =>
        if id < |s.lives| && s.lives[id].registered {
          CloseErasesOne(s, id, onDestroyed);
          ScriptKeeps(s, onMessage);
          AlikeIsForward(s, RunScript(s, onMessage));
        }
      case Do(act) =>
        ActKeeps(s, act);
        AlikeIsForward(s, RunAct(s, act));
      case Destroy(scripts) => DestroyKeeps(s, scripts);
    }
  }

  lemma StartIsSound(name: string, registry: P.Registry<Chan>)
    requires FreshLoop(registry)
    ensures Inv(Start(name, registry))
  {
    forall p | 0 <= p < |registry.pollfds| ensures P.At(registry, p).Other? {
      assert P.At(registry, p) in registry.index;
    }
    forall f | f in registry.channels ensures registry.channels[f].Other? {
      var p :| 0 <= p < |registry.pollfds| && registry.pollfds[p].fd == f;
      assert P.At(registry, p).Other?;
    }
  }

  /** Over every run of accepts, events, changes of interest, shutdowns and the destructor, with
      any user callbacks. An assert of the poller fires exactly when some connection is changed
      or ended although it, or one accepted before it, has ended since it was accepted. In every
      run each connection is alive, having seen one user callback, or over, deregistered exactly
      once, having seen two; and unless an assert has fired, the map and the poller hold exactly
      the connections that are alive. */
  lemma {:induction false} LivesAreSound(name: string, registry: P.Registry<Chan>, ops: seq<Op>)
    requires FreshLoop(registry)
    ensures var s := Run(Start(name, registry), ops);
            && (s.aborted <==> !Legal(s.log))
            && LivesInv(s)
            && (!s.aborted ==> MapInv(s) && PollInv(s))
    ensures Inv(Run(Start(name, registry), ops))
  {
    if ops == [] {
      StartIsSound(name, registry);
    } else {
      LivesAreSound(name, registry, ops[..|ops| - 1]);
      StepKeeps(Run(Start(name, registry), ops[..|ops| - 1]), ops[|ops| - 1]);
    }
  }

  /** States only move forward, from any point of a run to any later one. */
  lemma {:induction false} StatesMoveForward(name: string, registry: P.Registry<Chan>, ops: seq<Op>, n: nat)
    requires FreshLoop(registry) && n <= |ops|
    ensures Forward(Run(Start(name, registry), ops[..n]), Run(Start(name, registry), ops))
    decreases |ops|
  {
    hide Inv;
    hide Step;
    if n == |ops| {
      assert ops[..n] == ops;
    } else {
      var before := ops[..|ops| - 1];
      assert before[..n] == ops[..n];
      StatesMoveForward(name, registry, before, n);
      LivesAreSound(name, registry, before);
      StepKeeps(Run(Start(name, registry), before), ops[|ops| - 1]);
    }
  }

  lemma RunSnoc(s: Server, ops: seq<Op>, op: Op)
    ensures Run(s, ops + [op]) == Step(Run(s, ops), op)
  {
    assert (ops + [op])[..|ops|] == ops;
  }

  /** Closing an older connection before a newer one trips an assert, at any point of any run. */
  lemma OlderFirstAborts(name: string, registry: P.Registry<Chan>, ops: seq<Op>, a: Op, b: Op)
    requires FreshLoop(registry)
    requires a.Event? && b.Event? && a.id < b.id && Closes(a.events) && Closes(b.events)
    requires var s := Run(Start(name, registry), ops);
             b.id < |s.lives| && s.lives[a.id].registered && s.lives[b.id].registered
    ensures Run(Start(name, registry), ops + [a] + [b]).aborted
  {
    var s := Run(Start(name, registry), ops);
    LivesAreSound(name, registry, ops);
    RunSnoc(Start(name, registry), ops, a);
    RunSnoc(Start(name, registry), ops + [a], b);
    var d := Step(s, a);
    if !s.aborted && !d.aborted {
      CloseErasesOne(s, a.id, a.onDestroyed);
      CloseFinishes(s, a.id, a.onDestroyed);
      FinishedKeeps(s, a.id);
      ScriptKeeps(Finished(s, a.id), a.onDestroyed);
      FinishedEndsOne(s, a.id, d);
      hide Inv;
      hide Clean;
      hide HandleClose;
      CloseErasesOne(d, b.id, b.onDestroyed);
    }
  }

  /** Every live connection is clean, and the decimals of live numbers are ordered the other way
      round than the numbers. */
  ghost predicate Sweepable(s: Server) {
    && (forall a :: 0 <= a < |s.lives| && s.lives[a].registered ==> Clean(s.log, a))
    && (forall a, b :: 0 <= a < b < |s.lives| && s.lives[a].registered && s.lives[b].registered ==>
          Before(Decimal(b), Decimal(a)))
  }

  lemma NameOrder(s: Server, a: nat, b: nat)
    requires LivesInv(s) && a < |s.lives| && b < |s.lives|
    ensures Before(s.lives[a].name, s.lives[b].name) <==> Before(Decimal(a), Decimal(b))
  {
    BeforeAfterPrefix(s.name + "#", Decimal(a), Decimal(b));
  }

  lemma DescendsWhen(s: Server, order: seq<nat>)
    requires LivesInv(s) && AreAlive(s, order) && ByName(s.lives, order)
    requires forall id :: 0 <= id < |s.lives| && s.lives[id].registered ==> id in order
    ensures AllClean(s.log, order) && Descending(order) <==> Sweepable(s)
  {
    hide Clean;
    hide Decimal;
    hide LivesInv;
    hide Before;
    if AllClean(s.log, order) && Descending(order) {
      forall a | 0 <= a < |s.lives| && s.lives[a].registered ensures Clean(s.log, a) {
        var i :| 0 <= i < |order| && order[i] == a;
      }
      forall a, b | 0 <= a < b < |s.lives| && s.lives[a].registered && s.lives[b].registered
        ensures Before(Decimal(b), Decimal(a))
      {
        var i :| 0 <= i < |order| && order[i] == a;
        var j :| 0 <= j < |order| && order[j] == b;
        NameOrder(s, b, a);
      }
    }
    if Sweepable(s) {
      forall i, j | 0 <= i < j < |order| ensures order[i] > order[j] {
        if order[i] < order[j] {
          NameOrder(s, order[i], order[j]);
          BeforeIsStrict(Decimal(order[i]), Decimal(order[j]));
        }
      }
    }
  }

  /** Nothing is left: no connection in the map, each deregistered once and told twice. */
  predicate NothingLeft(s: Server) {
    && s.connections == map[]
    && forall i :: 0 <= i < |s.lives| ==>
         s.lives[i].deregistrations == 1 && s.lives[i].userCalls == [T.Connected, T.Disconnected]
  }

  lemma AllOver(s: Server, order: seq<nat>, d: Server)
    requires Inv(d) && !d.aborted && EndedThese(s, order, d)
    requires forall id :: 0 <= id < |s.lives| && s.lives[id].registered ==> id in order
    ensures NothingLeft(d)
  {
    hide PollInv;
    hide Legal;
    hide ConnName;
    assert forall i :: 0 <= i < |d.lives| ==> Sound(d.lives[i]) && !d.lives[i].registered;
  }

  lemma CanSweepParts(s: Server, order: seq<nat>, scripts: seq<Script>)
    ensures CanSweep(s, order, scripts) <==>
            (AllClean(s.log, order) && Descending(order)) && AllTame(s, order, scripts)
  {
  }

  lemma DestroyEndsAll(s: Server, scripts: seq<Script>)
    requires Inv(s) && !s.aborted
    ensures var d := Sweep(s, SweepOrder(s), scripts);
            && (!d.aborted <==> Sweepable(s) && AllTame(s, SweepOrder(s), scripts))
            && (!d.aborted ==> NothingLeft(d))
  {
    var order := SweepOrder(s);
    var d := Sweep(s, order, scripts);
    assert LivesInv(s) && MapInv(s);
    hide *;
    MapOrderIsAlive(s);
    DescendsWhen(s, order);
    SweepPassesWhen(s, order, scripts);
    CanSweepParts(s, order, scripts);
    if !d.aborted { AllOver(s, order, d); }
  }

  /** At any point of any run the destructor trips no assert exactly when the state is sweepable
      and each callback changes only clean connections older than its own. Then nothing is left. */
  lemma DestructorEndsAll(name: string, registry: P.Registry<Chan>, ops: seq<Op>, scripts: seq<Script>)
    requires FreshLoop(registry) && !Run(Start(name, registry), ops).aborted
    ensures var s := Run(Start(name, registry), ops);
            var d := Run(Start(name, registry), ops + [Destroy(scripts)]);
            && (!d.aborted <==> Sweepable(s) && AllTame(s, SweepOrder(s), scripts))
            && (!d.aborted ==> NothingLeft(d))
  {
    var s := Run(Start(name, registry), ops);
    assert s.aborted || Step(s, Destroy(scripts)) == Sweep(s, SweepOrder(s), scripts);
    hide *;
    LivesAreSound(name, registry, ops);
    RunSnoc(Start(name, registry), ops, Destroy(scripts));
    DestroyEndsAll(s, scripts);
  }

  /** So the destructor trips an assert whenever two live connections have numbers of the same
      length, whatever the callbacks do. */
  lemma DestructorAborts(name: string, registry: P.Registry<Chan>, ops: seq<Op>, scripts: seq<Script>, a: nat, b: nat)
    requires FreshLoop(registry) && a < b && |Decimal(a)| == |Decimal(b)|
    requires var s := Run(Start(name, registry), ops);
             b < |s.lives| && s.lives[a].registered && s.lives[b].registered
    ensures Run(Start(name, registry), ops + [Destroy(scripts)]).aborted
  {
    var s := Run(Start(name, registry), ops);
    if s.aborted {
      RunSnoc(Start(name, registry), ops, Destroy(scripts));
    } else {
      DestructorEndsAll(name, registry, ops, scripts);
      SameDigits(a, b);
      BeforeIsStrict(Decimal(a), Decimal(b));
    }
  }

  lemma AcceptPlain(s: Server, fd: int)
    requires Inv(s) && !s.aborted && fd >= 0 && fd !in s.registry.channels
    ensures var d := Step(s, Accept(fd, []));
            && Inv(d) && !d.aborted && d.log == s.log + [Began(|s.lives|)]
            && |d.lives| == |s.lives| + 1 && d.lives[..|s.lives|] == s.lives && d.lives[|s.lives|].registered
            && d.registry.channels == s.registry.channels[fd := Conn(|s.lives|)]
  {
    AcceptedKeeps(s, fd);
    assert Conn(|s.lives|) !in s.registry.index;
    hide Inv;
    hide ConnName;
  }

  lemma RunTwo(s: Server, a: Op, b: Op)
    ensures Run(s, [a, b]) == Step(Step(s, a), b)
  {
    assert [a, b][..1] == [a] && [a][..0] == [];
    hide Step;
    assert Run(s, [a]) == Step(s, a);
  }

  lemma AcceptTwo(s: Server, f: int, g: int)
    requires Inv(s) && !s.aborted && s.lives == [] && s.log == [] && 0 <= f && 0 <= g && f != g
    requires f !in s.registry.channels && g !in s.registry.channels
    ensures var d := Step(Step(s, Accept(f, [])), Accept(g, []));
            && Inv(d) && !d.aborted && |d.lives| == 2 && d.lives[0].registered && d.lives[1].registered
            && d.log == [Began(0), Began(1)]
  {
    hide *;
    AcceptPlain(s, f);
    var d := Step(s, Accept(f, []));
    AcceptPlain(d, g);
    var e := Step(d, Accept(g, []));
    assert e.lives[0] == e.lives[..1][0];
  }

  /** Two connections, accepted one after the other. */
  lemma TwoAccepted(name: string, registry: P.Registry<Chan>, f: int, g: int)
    requires FreshLoop(registry) && 0 <= f && 0 <= g && f != g
    requires f !in registry.channels && g !in registry.channels
    ensures var s := Run(Start(name, registry), [Accept(f, []), Accept(g, [])]);
            && Inv(s) && !s.aborted && |s.lives| == 2 && s.lives[0].registered && s.lives[1].registered
            && s.log == [Began(0), Began(1)]
  {
    hide Run;
    hide Step;
    hide Inv;
    hide FreshLoop;
    StartIsSound(name, registry);
    AcceptTwo(Start(name, registry), f, g);
    RunTwo(Start(name, registry), Accept(f, []), Accept(g, []));
  }

  /** The failing inputs: two connections closed oldest first, or still there at the destructor. */
  lemma TwoConnectionsAbort(name: string, registry: P.Registry<Chan>, f: int, g: int, end: Events)
    requires FreshLoop(registry) && 0 <= f && 0 <= g && f != g && Closes(end)
    requires f !in registry.channels && g !in registry.channels
    ensures var both := [Accept(f, []), Accept(g, [])];
            && Run(Start(name, registry), both + [Event(0, end, [], [])] + [Event(1, end, [], [])]).aborted
            && Run(Start(name, registry), both + [Destroy([])]).aborted
  {
    var both := [Accept(f, []), Accept(g, [])];
    TwoAccepted(name, registry, f, g);
    OlderFirstAborts(name, registry, both, Event(0, end, [], []), Event(1, end, [], []));
    DestructorAborts(name, registry, both, [], 0, 1);
  }

  lemma CloseStep(s: Server, id: nat, end: Events)
    requires !s.aborted && id < |s.lives| && s.lives[id].registered && Closes(end)
    ensures Step(s, Event(id, end, [], [])) == HandleClose(s, id, [])
  {
  }

  lemma ClosePlain(s: Server, id: nat, end: Events)
    requires Inv(s) && !s.aborted && id < |s.lives| && Clean(s.log, id) && Closes(end)
    ensures var d := Step(s, Event(id, end, [], []));
            Inv(d) && !d.aborted && d.log == s.log + [Ended(id)] && EndedOne(s, id, d)
  {
    FinishedFields(s, id);
    FinishedKeeps(s, id);
    CloseStep(s, id, end);
    CloseFinishes(s, id, []);
    var d := Finished(s, id);
    assert RunScript(d, []) == d;
    hide Step;
    hide HandleClose;
    hide RunScript;
    assert Alike(d, d) by { hide Clean; hide Inv; }
    FinishedEndsOne(s, id, d);
    hide Inv;
    hide Clean;
    hide Finished;
    hide Deregister;
    hide EndedOne;
  }

  lemma NewestFirst(s: Server, end: Events)
    requires Inv(s) && !s.aborted && |s.lives| == 2 && s.log == [Began(0), Began(1)] && Closes(end)
    ensures var d := Step(Step(s, Event(1, end, [], [])), Event(0, end, [], []));
            !d.aborted && d.connections == map[]
  {
    hide Inv;
    hide Step;
    assert Clean(s.log, 1) && Clean(s.log[..1], 0);
    assert s.log == s.log[..1] + [Began(1)];
    LogSnoc(s.log[..1], Began(1));
    hide Clean;
    ClosePlain(s, 1, end);
    LogSnoc(s.log, Ended(1));
    var d := Step(s, Event(1, end, [], []));
    ClosePlain(d, 0, end);
    AllOver(s, [0, 1], Step(d, Event(0, end, [], [])));
  }

  /** Newest first they close without an assert. */
  lemma TwoConnectionsClose(name: string, registry: P.Registry<Chan>, f: int, g: int, end: Events)
    requires FreshLoop(registry) && 0 <= f && 0 <= g && f != g && Closes(end)
    requires f !in registry.channels && g !in registry.channels
    ensures var both := [Accept(f, []), Accept(g, [])];
            var d := Run(Start(name, registry), both + [Event(1, end, [], [])] + [Event(0, end, [], [])]);
            !d.aborted && d.connections == map[]
  {
    hide *;
    var s, both := Start(name, registry), [Accept(f, []), Accept(g, [])];
    TwoAccepted(name, registry, f, g);
    RunSnoc(s, both, Event(1, end, [], []));
    RunSnoc(s, both + [Event(1, end, [], [])], Event(0, end, [], []));
    NewestFirst(Run(s, both), end);
  }

  // ---- What callbacks ask for ---------------------------------------------------------------

  /** The scripts of a sweep over `n` connections, one after the other. */
  function Join(n: nat, scripts: seq<Script>): Script
    decreases n
  {
    if n == 0 then [] else First(scripts) + Join(n - 1, Rest(scripts))
  }

  /** The acts an operation gives rise to: those of the connection callback of a connection
      accepted, of the message callback where bytes were received, of the connection callbacks of
      connections that end, and the operation's own. */
  function ActsOf(s: Server, op: Op): Script {
    match op
    case Accept(fd, onConnected) => if fd >= 0 && fd !in s.registry.channels then onConnected else []
    case Event(id, events, onMessage, onDestroyed) =>
      if id >= |s.lives| || !s.lives[id].registered then []
      else if events.hangUp then onDestroyed
      else if !events.readable || events.received < 0 then []
      else if events.received == 0 then onDestroyed else onMessage
    case Do(act) => [act]
    case Destroy(scripts) => Join(|SweepOrder(s)|, scripts)
  }

  /** Those on connections that exist. */
  function Effective(acts: Script, n: nat): Script {
    if acts == [] then []
    else (if acts[0].id < n then [acts[0]] else []) + Effective(acts[1..], n)
  }

  /** All acts of a run on connections that existed by then, in order. */
  function Asked(s: Server, ops: seq<Op>): Script {
    if ops == [] then []
    else
      var before, last := ops[..|ops| - 1], ops[|ops| - 1];
      Asked(s, before) + Effective(ActsOf(Run(s, before), last), |Run(s, ops).lives|)
  }

  function Changes(log: seq<Note>): seq<nat> {
    if log == [] then []
    else Changes(log[..|log| - 1]) + if log[|log| - 1].Changed? then [log[|log| - 1].id] else []
  }

  function Interests(acts: Script): seq<nat> {
    if acts == [] then []
    else Interests(acts[..|acts| - 1]) + if acts[|acts| - 1].Interest? then [acts[|acts| - 1].id] else []
  }

  /** The events the last change of interest asked for, POLLIN and POLLPRI with or without POLLOUT;
      without it, before any. */
  function Wanted(acts: Script, id: nat): int {
    if acts == [] then 3
    else
      var last := acts[|acts| - 1];
      if last.Interest? && last.id == id then (if last.writing then 7 else 3)
      else Wanted(acts[..|acts| - 1], id)
  }

  /** The connection's poll entry asks for these events. */
  ghost predicate Listens(s: Server, id: nat, events: int)
    requires id < |s.lives|
  {
    P.PollFd(s.lives[id].fd, events, 0) in s.registry.pollfds
  }

  ghost predicate PhasesHeed(s: Server, acts: Script) {
    forall i :: 0 <= i < |s.lives| && s.lives[i].registered ==>
      (s.lives[i].phase == T.Disconnecting <==> Shut(i) in acts)
  }

  ghost predicate EntriesHeed(s: Server, acts: Script) {
    forall i, events :: 0 <= i < |s.lives| && s.lives[i].registered ==>
      (Listens(s, i, events) <==> events == Wanted(acts, i))
  }

  /** The poller was asked for exactly the changes of interest among the acts, in order; each live
      connection's entry has the last of them; and it is half-closing exactly when one of the
      acts shut it down. */
  ghost predicate Heeds(s: Server, acts: Script) {
    && (forall i :: 0 <= i < |acts| ==> acts[i].id < |s.lives|)
    && Changes(s.log) == Interests(acts)
    && PhasesHeed(s, acts)
    && EntriesHeed(s, acts)
  }

  lemma ActsSnoc(acts: Script, act: Act)
    ensures Interests(acts + [act]) == Interests(acts) + if act.Interest? then [act.id] else []
    ensures forall id :: Wanted(acts + [act], id) ==
              if act.Interest? && act.id == id then (if act.writing then READ + WRITE else READ) else Wanted(acts, id)
  {
    assert (acts + [act])[..|acts|] == acts;
  }

  lemma ChangesSnoc(log: seq<Note>, note: Note)
    ensures Changes(log + [note]) == Changes(log) + if note.Changed? then [note.id] else []
  {
    assert (log + [note])[..|log|] == log;
  }

  lemma TouchListens(s: Server, id: nat, events: int, i: nat, wanted: int)
    requires PollInv(s) && id < |s.lives| && i < |s.lives| && Clean(s.log, id) && s.lives[i].registered
    ensures Listens(Touch(s, id, events), i, wanted) <==>
              if i == id then events != 0 && wanted == events else Listens(s, i, wanted)
  {
    PassesWhenClean(s, id, events);
    var call := P.Call(Conn(id), s.lives[id].fd, events);
    P.InterestIsRecorded(s.registry, call, P.PollFd(s.lives[i].fd, wanted, 0));
    assert i != id ==> s.lives[i].fd != s.lives[id].fd;
    assert Conn(id) in s.registry.index;
    hide P.Inv;
    hide P.Update;
    hide Clean;
    hide Ordered;
    hide Right;
  }

  lemma InterestEntries(s: Server, acts: Script, act: Act, events: int)
    requires PollInv(s) && EntriesHeed(s, acts) && act.Interest? && act.id < |s.lives| && Clean(s.log, act.id)
    requires events == if act.writing then READ + WRITE else READ
    ensures EntriesHeed(Touch(s, act.id, events), acts + [act])
  {
    var d := Touch(s, act.id, events);
    ActsSnoc(acts, act);
    hide PollInv;
    hide Clean;
    hide Listens;
    hide Wanted;
    forall i, wanted | 0 <= i < |d.lives| && d.lives[i].registered
      ensures Listens(d, i, wanted) <==> wanted == Wanted(acts + [act], i)
    {
      TouchListens(s, act.id, events, i, wanted);
    }
  }

  lemma InterestHeeded(s: Server, acts: Script, act: Act)
    requires Inv(s) && !s.aborted && Heeds(s, acts) && act.Interest? && act.id < |s.lives|
    requires !RunAct(s, act).aborted
    ensures Heeds(RunAct(s, act), acts + [act])
  {
    var events := if act.writing then READ + WRITE else READ;
    ActAborts(s, act);
    TouchFields(s, act.id, events);
    ActsSnoc(acts, act);
    ChangesSnoc(s.log, Changed(act.id));
    InterestEntries(s, acts, act, events);
    hide Inv;
    hide Clean;
    hide EntriesHeed;
    hide Changes;
    hide Interests;
    hide Wanted;
    hide Touch;
  }

  lemma ShutEntries(s: Server, d: Server, acts: Script, act: Act)
    requires EntriesHeed(s, acts) && act.Shut? && d.registry == s.registry && |d.lives| == |s.lives|
    requires forall i :: 0 <= i < |s.lives| ==>
               d.lives[i].registered == s.lives[i].registered && d.lives[i].fd == s.lives[i].fd
    ensures EntriesHeed(d, acts + [act])
  {
    ActsSnoc(acts, act);
    hide Wanted;
    forall i, wanted | 0 <= i < |d.lives| && d.lives[i].registered
      ensures Listens(d, i, wanted) <==> wanted == Wanted(acts + [act], i)
    {
      assert Listens(s, i, wanted) <==> wanted == Wanted(acts, i);
    }
  }

  lemma ShutPhases(s: Server, acts: Script, act: Act)
    requires LivesInv(s) && !s.aborted && PhasesHeed(s, acts) && act.Shut? && act.id < |s.lives|
    ensures PhasesHeed(RunAct(s, act), acts + [act])
  {
    assert Sound(s.lives[act.id]);
    hide ConnName;
  }

  lemma ShutHeeded(s: Server, acts: Script, act: Act)
    requires LivesInv(s) && !s.aborted && Heeds(s, acts) && act.Shut? && act.id < |s.lives|
    ensures Heeds(RunAct(s, act), acts + [act])
  {
    var d := RunAct(s, act);
    ActsSnoc(acts, act);
    ShutPhases(s, acts, act);
    ShutEntries(s, d, acts, act);
    hide LivesInv;
    hide PhasesHeed;
    hide EntriesHeed;
    hide Changes;
    hide Interests;
    hide Wanted;
  }

  lemma ActHeeded(s: Server, acts: Script, act: Act)
    requires Inv(s) && !s.aborted && Heeds(s, acts) && !RunAct(s, act).aborted
    ensures Heeds(RunAct(s, act), acts + Effective([act], |s.lives|))
  {
    assert [act][1..] == [];
    assert Effective([act], |s.lives|) == if act.id < |s.lives| then [act] else [];
    assert acts + [] == acts;
    if act.id < |s.lives| {
      if act.Interest? { InterestHeeded(s, acts, act); } else { ShutHeeded(s, acts, act); }
    }
  }

  lemma EffectiveCons(acts: Script, script: Script, n: nat)
    requires script != []
    ensures acts + Effective([script[0]], n) + Effective(script[1..], n) == acts + Effective(script, n)
  {
    var one, rest := if script[0].id < n then [script[0]] else [], Effective(script[1..], n);
    assert [script[0]][1..] == [] && Effective([], n) == [] && one + [] == one;
    assert Effective([script[0]], n) == one && Effective(script, n) == one + rest;
    hide Effective;
    assert acts + one + rest == acts + (one + rest);
  }

  lemma {:induction false} ScriptHeeded(s: Server, acts: Script, script: Script)
    requires Inv(s) && !s.aborted && Heeds(s, acts) && !RunScript(s, script).aborted
    ensures Heeds(RunScript(s, script), acts + Effective(script, |s.lives|))
    decreases |script|
  {
    hide Inv;
    hide Heeds;
    hide RunAct;
    if script == [] {
      assert acts + [] == acts;
    } else {
      var d, rest, n := RunAct(s, script[0]), script[1..], |s.lives|;
      if d.aborted { StaysAborted(d, rest); }
      ActKeeps(s, script[0]);
      AlikeFds(s, d);
      hide Alike;
      ActHeeded(s, acts, script[0]);
      ScriptHeeded(d, acts + Effective([script[0]], n), rest);
      hide Effective;
      EffectiveCons(acts, script, n);
    }
  }

  lemma FinishedEntries(s: Server, acts: Script, id: nat)
    requires PollInv(s) && !s.aborted && EntriesHeed(s, acts) && id < |s.lives| && Clean(s.log, id)
    ensures EntriesHeed(Finished(s, id), acts)
  {
    var d, e := Finished(s, id), Touch(s, id, 0);
    FinishedFields(s, id);
    assert d.registry == e.registry && e.lives == s.lives;
    hide PollInv;
    hide Clean;
    hide Wanted;
    hide Finished;
    hide Touch;
    hide Deregister;
    forall i, wanted | 0 <= i < |d.lives| && d.lives[i].registered
      ensures Listens(d, i, wanted) <==> wanted == Wanted(acts, i)
    {
      TouchListens(s, id, 0, i, wanted);
      assert Listens(s, i, wanted) <==> wanted == Wanted(acts, i);
    }
  }

  lemma FinishedHeeded(s: Server, acts: Script, id: nat)
    requires Inv(s) && !s.aborted && Heeds(s, acts) && id < |s.lives| && Clean(s.log, id)
    ensures Heeds(Finished(s, id), acts)
  {
    FinishedFields(s, id);
    ChangesSnoc(s.log, Ended(id));
    FinishedEntries(s, acts, id);
    hide Inv;
    hide Clean;
    hide Finished;
    hide Deregister;
    hide EntriesHeed;
    hide Changes;
  }

  lemma AcceptedListens(s: Server, fd: int, i: nat, wanted: int)
    requires PollInv(s) && fd >= 0 && fd !in s.registry.channels && i <= |s.lives|
    requires P.Passes(s.registry, P.Call(Conn(|s.lives|), fd, READ))
    requires i < |s.lives| ==> s.lives[i].registered
    ensures Listens(Accepted(s, fd), i, wanted) <==>
              if i == |s.lives| then wanted == READ else Listens(s, i, wanted)
  {
    var d := Accepted(s, fd);
    P.InterestIsRecorded(s.registry, P.Call(Conn(|s.lives|), fd, READ), P.PollFd(d.lives[i].fd, wanted, 0));
    assert Conn(|s.lives|) !in s.registry.index;
    hide P.Inv;
    hide P.Update;
    hide ConnName;
    hide Ordered;
    hide Right;
    hide Clean;
  }

  lemma {:induction false} WantedByNone(acts: Script, id: nat)
    requires forall i :: 0 <= i < |acts| ==> acts[i].id != id
    ensures Wanted(acts, id) == READ && Shut(id) !in acts
  {
    if acts != [] {
      var before := acts[..|acts| - 1];
      assert forall i :: 0 <= i < |before| ==> before[i] == acts[i];
      WantedByNone(before, id);
    }
  }

  lemma AcceptedEntries(s: Server, acts: Script, fd: int)
    requires PollInv(s) && EntriesHeed(s, acts) && fd >= 0 && fd !in s.registry.channels
    requires P.Passes(s.registry, P.Call(Conn(|s.lives|), fd, READ))
    requires forall i :: 0 <= i < |acts| ==> acts[i].id < |s.lives|
    ensures EntriesHeed(Accepted(s, fd), acts)
  {
    var d, n := Accepted(s, fd), |s.lives|;
    WantedByNone(acts, n);
    assert |d.lives| == n + 1 && forall i :: 0 <= i < n ==> d.lives[i] == s.lives[i];
    hide PollInv;
    hide Clean;
    hide Wanted;
    hide Listens;
    hide Accepted;
    hide P.Passes;
    forall i, wanted | 0 <= i < |d.lives| && d.lives[i].registered
      ensures Listens(d, i, wanted) <==> wanted == Wanted(acts, i)
    {
      AcceptedListens(s, fd, i, wanted);
      assert i < n ==> (Listens(s, i, wanted) <==> wanted == Wanted(acts, i));
    }
  }

  lemma AcceptedHeeded(s: Server, acts: Script, fd: int)
    requires Inv(s) && !s.aborted && Heeds(s, acts) && fd >= 0 && fd !in s.registry.channels
    ensures P.Passes(s.registry, P.Call(Conn(|s.lives|), fd, READ)) && Heeds(Accepted(s, fd), acts)
  {
    AcceptedKeeps(s, fd);
    ChangesSnoc(s.log, Began(|s.lives|));
    WantedByNone(acts, |s.lives|);
    AcceptedEntries(s, acts, fd);
    hide Inv;
    hide P.Passes;
    hide P.Update;
    hide ConnName;
    hide EntriesHeed;
    hide Changes;
    hide Interests;
    hide Wanted;
  }

  lemma {:induction false} EffectiveAppend(a: Script, b: Script, n: nat)
    ensures Effective(a + b, n) == Effective(a, n) + Effective(b, n)
  {
    if a == [] {
      assert a + b == b;
    } else {
      var one := if a[0].id < n then [a[0]] else [];
      assert (a + b)[0] == a[0] && (a + b)[1..] == a[1..] + b;
      assert Effective(a, n) == one + Effective(a[1..], n);
      assert Effective(a + b, n) == one + Effective(a[1..] + b, n);
      hide Effective;
      EffectiveAppend(a[1..], b, n);
    }
  }

  lemma SweepOneHeeded(s: Server, acts: Script, id: nat, script: Script)
    requires Inv(s) && !s.aborted && Heeds(s, acts) && id < |s.lives| && s.lives[id].registered
    requires !SweepOne(s, id, script).aborted
    ensures Heeds(SweepOne(s, id, script), acts + Effective(script, |s.lives|))
  {
    LiveCanClose(s, id);
    SweepOneKeeps(s, id, script);
    hide *;
    FinishedHeeded(s, acts, id);
    FinishedKeeps(s, id);
    FinishedFields(s, id);
    SweepFinishes(s, id, script);
    ScriptHeeded(Finished(s, id), acts, script);
  }

  lemma {:induction false} SweepHeeded(s: Server, acts: Script, order: seq<nat>, scripts: seq<Script>)
    requires Inv(s) && !s.aborted && Heeds(s, acts) && AreAlive(s, order) && !Sweep(s, order, scripts).aborted
    ensures Heeds(Sweep(s, order, scripts), acts + Effective(Join(|order|, scripts), |s.lives|))
    decreases |order|
  {
    hide Inv;
    hide Heeds;
    hide Clean;
    if order == [] {
      assert Effective([], |s.lives|) == [] && acts + [] == acts;
    } else {
      var id, script, n := order[0], First(scripts), |s.lives|;
      var d := SweepOne(s, id, script);
      SweepOneKeeps(s, id, script);
      assert Sweep(s, order, scripts) == Sweep(d, order[1..], Rest(scripts));
      hide SweepOne;
      SweepOneHeeded(s, acts, id, script);
      OthersAlive(s, d, order);
      SweepHeeded(d, acts + Effective(script, n), order[1..], Rest(scripts));
      EffectiveAppend(script, Join(|order| - 1, Rest(scripts)), n);
      assert acts + Effective(script, n) + Effective(Join(|order| - 1, Rest(scripts)), n)
             == acts + Effective(Join(|order|, scripts), n);
    }
  }

  lemma StepHeeded(s: Server, acts: Script, op: Op)
    requires Inv(s) && !s.aborted && Heeds(s, acts) && !Step(s, op).aborted
    ensures Heeds(Step(s, op), acts + Effective(ActsOf(s, op), |Step(s, op).lives|))
  {
    hide Inv;
    hide Heeds;
    hide HandleClose;
    hide RunScript;
    hide RunAct;
    hide Sweep;
    hide SweepOrder;
    hide AcceptConnection;
    match op
    case Accept(fd, onConnected) =>
      if fd >= 0 && fd !in s.registry.channels { AcceptHeeded(s, acts, fd, onConnected); } else { assert acts + [] == acts; }
    case Event(id, events, onMessage, onDestroyed) =>
      if id < |s.lives| && s.lives[id].registered {
        if Closes(events) {
          CloseHeeded(s, acts, id, onDestroyed);
        } else if events.readable && events.received > 0 {
          ScriptKeeps(s, onMessage);
          ScriptHeeded(s, acts, onMessage);
        } else {
          assert acts + [] == acts;
        }
      } else {
        assert acts + [] == acts;
      }
    case Do(act) =>
      ActKeeps(s, act);
      ActHeeded(s, acts, act);
    case Destroy(scripts) => DestroyHeeded(s, acts, scripts);
  }

  lemma AcceptHeeded(s: Server, acts: Script, fd: int, onConnected: Script)
    requires Inv(s) && !s.aborted && Heeds(s, acts) && fd >= 0 && fd !in s.registry.channels
    requires !AcceptConnection(s, fd, onConnected).aborted
    ensures var d := AcceptConnection(s, fd, onConnected);
            |d.lives| == |s.lives| + 1 && Heeds(d, acts + Effective(onConnected, |s.lives| + 1))
  {
    AcceptedHeeded(s, acts, fd);
    AcceptedKeeps(s, fd);
    var d := Accepted(s, fd);
    assert AcceptConnection(s, fd, onConnected) == RunScript(d, onConnected) && |d.lives| == |s.lives| + 1;
    assert !d.aborted;
    hide *;
    ScriptKeeps(d, onConnected);
    ScriptHeeded(d, acts, onConnected);
    AlikeFds(d, RunScript(d, onConnected));
  }

  lemma CloseHeeded(s: Server, acts: Script, id: nat, onDestroyed: Script)
    requires Inv(s) && !s.aborted && Heeds(s, acts) && id < |s.lives| && s.lives[id].registered
    requires !HandleClose(s, id, onDestroyed).aborted
    ensures var d := HandleClose(s, id, onDestroyed);
            |d.lives| == |s.lives| && Heeds(d, acts + Effective(onDestroyed, |s.lives|))
  {
    hide *;
    LiveCanClose(s, id);
    CloseErasesOne(s, id, onDestroyed);
    FinishedHeeded(s, acts, id);
    FinishedKeeps(s, id);
    FinishedFields(s, id);
    CloseFinishes(s, id, onDestroyed);
    ScriptHeeded(Finished(s, id), acts, onDestroyed);
  }

  lemma DestroyHeeded(s: Server, acts: Script, scripts: seq<Script>)
    requires Inv(s) && !s.aborted && Heeds(s, acts) && !Sweep(s, SweepOrder(s), scripts).aborted
    ensures var d := Sweep(s, SweepOrder(s), scripts);
            |d.lives| == |s.lives| && Heeds(d, acts + Effective(Join(|SweepOrder(s)|, scripts), |s.lives|))
  {
    assert LivesInv(s) && MapInv(s);
    hide *;
    MapOrderIsAlive(s);
    SweepPassesWhen(s, SweepOrder(s), scripts);
    SweptLives(s, SweepOrder(s), Sweep(s, SweepOrder(s), scripts));
    SweepHeeded(s, acts, SweepOrder(s), scripts);
  }

  lemma SweptLives(s: Server, order: seq<nat>, d: Server)
    requires EndedThese(s, order, d)
    ensures |d.lives| == |s.lives|
  {
  }

  /** Over every run without an abort: the changes of interest the poller was asked for are those
      the callbacks and the operations asked for, in order, each live connection's poll entry has
      the last of them, and a live connection is half-closing exactly when one of the acts of the
      run shut it down. */
  lemma {:induction false} CallbacksAreHeeded(name: string, registry: P.Registry<Chan>, ops: seq<Op>)
    requires FreshLoop(registry) && !Run(Start(name, registry), ops).aborted
    ensures Heeds(Run(Start(name, registry), ops), Asked(Start(name, registry), ops))
  {
    var s := Start(name, registry);
    if ops != [] {
      var before, last := ops[..|ops| - 1], ops[|ops| - 1];
      hide Inv;
      hide Heeds;
      hide ActsOf;
      CallbacksAreHeeded(name, registry, before);
      LivesAreSound(name, registry, before);
      StepHeeded(Run(s, before), Asked(s, before), last);
    }
  }

  /** The descriptors accepted, in order. */
  function Fds(s: Server, ops: seq<Op>): seq<int> {
    if ops == [] then []
    else
      var before, last := ops[..|ops| - 1], ops[|ops| - 1];
      Fds(s, before) + if Accepts(Run(s, before), last) then [last.fd] else []
  }

  ghost predicate HasFds(s: Server, fds: seq<int>) {
    |s.lives| == |fds| && forall i :: 0 <= i < |fds| ==> s.lives[i].fd == fds[i]
  }

  lemma StepFds(s: Server, fds: seq<int>, op: Op)
    requires Inv(s) && HasFds(s, fds)
    ensures HasFds(Step(s, op), fds + if Accepts(s, op) then [op.fd] else [])
  {
    StepKeeps(s, op);
    hide Inv;
    hide Step;
    hide Accepts;
    hide Rank;
  }

  /** Over every run there is one connection for each descriptor accepted, in order. */
  lemma {:induction false} ConnectionsAreThoseAccepted(name: string, registry: P.Registry<Chan>, ops: seq<Op>)
    requires FreshLoop(registry)
    ensures HasFds(Run(Start(name, registry), ops), Fds(Start(name, registry), ops))
  {
    var s := Start(name, registry);
    if ops != [] {
      var before, last := ops[..|ops| - 1], ops[|ops| - 1];
      hide Inv;
      hide Step;
      hide HasFds;
      hide Accepts;
      ConnectionsAreThoseAccepted(name, registry, before);
      LivesAreSound(name, registry, before);
      StepFds(Run(s, before), Fds(s, before), last);
    }
  }

  // ---- The server object --------------------------------------------------------------------

  class TcpServer {
    const name: string
    var connections: map<string, nat>
    var lives: seq<Life>
    var registry: P.Registry<Chan>
    var aborted: bool
    ghost var log: seq<Note>

    ghost function View(): Server
      reads this
    {
      Server(name, connections, lives, registry, log, aborted)
    }

    constructor (name: string, registry: P.Registry<Chan>)
      ensures View() == Start(name, registry)
    {
      this.name := name;
      this.registry := registry;
      connections, lives, log, aborted := map[], [], [], false;
    }

    /** `Channel::update`; `aborted` says that an assert of the poller fired. */
    method UpdateChannel(id: nat, events: int)
      requires id < |lives|
      modifies this`registry, this`log, this`aborted
      ensures View() == Touch(old(View()), id, events)
    {
      var call := P.Call(Conn(id), lives[id].fd, events);
      log := log + [NoteOf(id, events)];
      if P.Passes(registry, call) {
        registry := P.Update(registry, call);
      } else {
        aborted := true;
      }
    }

    method UserCallback(script: Script)
      modifies this`lives, this`registry, this`log, this`aborted
      ensures View() == RunScript(old(View()), script)
    {
      var left := script;
      hide Touch;
      while left != []
        invariant RunScript(View(), left) == RunScript(old(View()), script)
        decreases |left|
      {
        var id := left[0].id;
        ghost var before := View();
        if !aborted && id < |lives| {
          match left[0]
          case Shut(_) =>
            if lives[id].phase == T.Connected {
              lives := lives[id := lives[id].(phase := T.Disconnecting)];
            }
          case Interest(_, writing) =>
            UpdateChannel(id, if writing then READ + WRITE else READ);
        }
        assert View() == RunAct(before, left[0]);
        left := left[1..];
      }
    }

    method NewConnection(fd: int, onConnected: Script)
      modifies this
      ensures View() == AcceptConnection(old(View()), fd, onConnected)
    {
      var id := |lives|;
      var connName := name + "#" + Decimal(id);
      var call := P.Call(Conn(id), fd, READ);
      log := log + [Began(id)];
      if !P.Passes(registry, call) {
        aborted := true;
        return;
      }
      registry := P.Update(registry, call);
      connections := connections[connName := id];
      lives := lives + [NewLife(connName, fd)];
      UserCallback(onConnected);
    }

    method DisableAll(id: nat)
      requires id < |lives|
      modifies this`lives, this`registry, this`log, this`aborted
      ensures View() == Deregister(old(View()), id) && |lives| == old(|lives|)
    {
      UpdateChannel(id, 0);
      if !aborted {
        lives := lives[id := lives[id].(registered := false, deregistrations := lives[id].deregistrations + 1)];
      }
    }

    method ConnectDestroyedNow(id: nat, onDestroyed: Script)
      requires id < |lives| && !aborted
      modifies this`lives, this`registry, this`log, this`aborted
      ensures View() == ConnectDestroyed(old(View()), id, onDestroyed)
    {
      hide Deregister;
      if lives[id].phase == T.Connected || lives[id].phase == T.Disconnecting {
        DisableAll(id);
        if aborted {
          return;
        }
      }
      lives := lives[id := Over(lives[id])];
      UserCallback(onDestroyed);
    }

    method Close(id: nat, onDestroyed: Script)
      requires CanClose(View(), id) && !aborted
      modifies this
      ensures View() == HandleClose(old(View()), id, onDestroyed)
    {
      DisableAll(id);
      if aborted {
        return;
      }
      lives := lives[id := lives[id].(phase := T.Disconnected)];
      connections := connections - {lives[id].name};
      ConnectDestroyedNow(id, onDestroyed);
    }

    method HandleEventNow(id: nat, events: Events, onMessage: Script, onDestroyed: Script)
      requires CanClose(View(), id) && !aborted
      modifies this
      ensures View() == HandleEvent(old(View()), id, events, onMessage, onDestroyed)
    {
      if events.hangUp {
        Close(id, onDestroyed);
        return;
      }
      if events.readable {
        if events.received > 0 {
          UserCallback(onMessage);
        } else if events.received == 0 {
          Close(id, onDestroyed);
        }
      }
    }

    /** The destructor's sweep, which stops where an assert fires. */
    method DestroyAll(scripts: seq<Script>)
      requires !aborted
      modifies this
      ensures View() == Step(old(View()), Destroy(scripts))
    {
      var order: seq<nat> := MapOrder(lives, connections, |lives|);
      var left := scripts;
      while order != [] && !aborted && order[0] < |lives|
        invariant Sweep(View(), order, left) == Step(old(View()), Destroy(scripts))
        decreases |order|
      {
        var id := order[0];
        connections := connections - {lives[id].name};
        ConnectDestroyedNow(id, First(left));
        order, left := order[1..], Rest(left);
      }
    }
  }
}
