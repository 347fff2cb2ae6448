/** The timer queue (net/timer_queue.cc): a multimap ordered by expiration, driven by a one-shot
    alarm. Callbacks that fire may add timers while their batch is still firing. Times are
    microseconds. */
module TimerQueues {
  import opened Bytes

  /** `period` is the interval truncated to whole microseconds; a positive interval below one
      microsecond repeats with period zero. */
  datatype Timer = Timer(id: nat, expiration: int, repeat: bool, period: nat)

  /** An entry of the multimap; `stamp` numbers the insertions. */
  datatype Entry = Entry(key: int, stamp: nat, timer: Timer)

  datatype Timespec = Timespec(sec: int, nsec: int)

  /** The timerfd: never armed or already read, armed at clock `armedAt` for the timer due at
      `due`, or expired and not yet read. */
  datatype Alarm = Off | Armed(due: int, armedAt: int, spec: Timespec) | Pending

  datatype Firing = Firing(id: nat, at: int)

  /** `born` lists the timers as they were added, `fired` the firings in order. */
  datatype State = State(
    table: seq<Entry>, alarm: Alarm, nextStamp: nat, born: seq<Timer>, fired: seq<Firing>)

  /** A call of `addTimer` and the clock it reads when it sets the alarm. */
  datatype Request = Request(when: int, repeat: bool, period: nat, clock: int)

  datatype Op =
    | Add(request: Request)
    | Expire
    | Ring(now: int, scripts: seq<seq<Request>>, clock: int)

  // ---- The alarm ----------------------------------------------------------------------------

  const MICROS_PER_SECOND: int := 1000 * 1000

  function HowMuchTimeFromNow(due: int, clock: int): Timespec {
    var micros := Max(due - clock, 100);
    Timespec(micros / MICROS_PER_SECOND, micros % MICROS_PER_SECOND * 1000)
  }

  function Micros(spec: Timespec): int {
    spec.sec * 1_000_000 + spec.nsec / 1000
  }

  function ResetTimerfd(due: int, clock: int): Alarm {
    Armed(due, clock, HowMuchTimeFromNow(due, clock))
  }

  /** The timespec the kernel gets is well formed, is not zero (which would disarm the timer),
      and asks for the due time but at least 100 microseconds. */
  lemma AlarmTarget(due: int, clock: int)
    ensures var spec := HowMuchTimeFromNow(due, clock);
            && 0 <= spec.sec && 0 <= spec.nsec < 1_000_000_000 && spec != Timespec(0, 0)
            && clock + Micros(spec) == Max(due, clock + 100)
  {
    var micros := Max(due - clock, 100);
    assert micros == micros / MICROS_PER_SECOND * MICROS_PER_SECOND + micros % MICROS_PER_SECOND;
    assert micros % MICROS_PER_SECOND * 1000 / 1000 == micros % MICROS_PER_SECOND;
  }

  // ---- The table ----------------------------------------------------------------------------

  /** A multimap inserts an equal key after those already there. */
  function Insert(table: seq<Entry>, e: Entry): seq<Entry> {
    if table == [] || e.key < table[0].key then [e] + table
    else [table[0]] + Insert(table[1..], e)
  }

  function LowerBound(table: seq<Entry>, now: int): (k: nat)
    ensures k <= |table|
  {
    if table == [] || now <= table[0].key then 0 else 1 + LowerBound(table[1..], now)
  }

  predicate Before(a: Entry, b: Entry) {
    a.key < b.key || (a.key == b.key && a.stamp < b.stamp)
  }

  ghost predicate Sorted(table: seq<Entry>) {
    forall i, j :: 0 <= i < j < |table| ==> Before(table[i], table[j])
  }

  /** How many entries belong to the timer. */
  function Count(entries: seq<Entry>, id: nat): nat {
    if entries == [] then 0
    else (if entries[0].timer.id == id then 1 else 0) + Count(entries[1..], id)
  }

  /** How many of the firings were of the timer. */
  function CountFired(fired: seq<Firing>, id: nat): nat {
    if fired == [] then 0
    else CountFired(fired[..|fired| - 1], id) + if fired[|fired| - 1].id == id then 1 else 0
  }

  lemma {:induction false} InsertHolds(table: seq<Entry>, e: Entry)
    ensures |Insert(table, e)| == |table| + 1
    ensures forall x :: x in Insert(table, e) <==> x == e || x in table
    ensures Insert(table, e)[0] == if table == [] || e.key < table[0].key then e else table[0]
  {
    if table == [] || e.key < table[0].key {
      assert ([e] + table)[1..] == table;
    } else {
      InsertHolds(table[1..], e);
      assert table == [table[0]] + table[1..];
      assert ([table[0]] + Insert(table[1..], e))[1..] == Insert(table[1..], e);
    }
  }

  lemma {:induction false} InsertCounts(table: seq<Entry>, e: Entry, id: nat)
    ensures Count(Insert(table, e), id) == Count(table, id) + if e.timer.id == id then 1 else 0
  {
    if table == [] || e.key < table[0].key {
      assert ([e] + table)[1..] == table;
    } else {
      InsertCounts(table[1..], e, id);
      assert ([table[0]] + Insert(table[1..], e))[1..] == Insert(table[1..], e);
    }
  }

  lemma {:induction false} InsertSorts(table: seq<Entry>, e: Entry)
    requires Sorted(table) && forall x :: x in table ==> x.stamp < e.stamp
    ensures Sorted(Insert(table, e))
  {
    if table == [] || e.key < table[0].key {
    } else {
      var tail := table[1..];
      InsertSorts(tail, e);
      InsertHolds(tail, e);
      assert table == [table[0]] + tail;
      forall x | x in Insert(tail, e)
        ensures Before(table[0], x)
      {
      }
    }
  }

  lemma {:induction false} CountAppend(a: seq<Entry>, b: seq<Entry>, id: nat)
    ensures Count(a + b, id) == Count(a, id) + Count(b, id)
  {
    if a == [] {
      assert a + b == b;
    } else {
      assert (a + b)[1..] == a[1..] + b;
      CountAppend(a[1..], b, id);
    }
  }

  lemma {:induction false} IdPresent(entries: seq<Entry>, e: Entry)
    requires e in entries
    ensures Count(entries, e.timer.id) > 0
  {
    if e != entries[0] {
      assert e in entries[1..];
      IdPresent(entries[1..], e);
    }
  }

  /** In a sorted table the lower bound splits exactly at `now`: the entries before it are
      those due strictly earlier. */
  lemma {:induction false} SplitsAtNow(table: seq<Entry>, now: int)
    requires Sorted(table)
    ensures forall i :: 0 <= i < |table| ==> (i < LowerBound(table, now) <==> table[i].key < now)
  {
    if table != [] {
      var tail := table[1..];
      assert Sorted(tail);
      SplitsAtNow(tail, now);
      forall i | 0 <= i < |table|
        ensures i < LowerBound(table, now) <==> table[i].key < now
      {
        if i > 0 { assert table[i] == tail[i - 1] && Before(table[0], table[i]); }
      }
    }
  }

  // ---- Operations ---------------------------------------------------------------------------

  function NewEntry(s: State, r: Request): Entry {
    Entry(r.when, s.nextStamp, Timer(|s.born|, r.when, r.repeat, r.period))
  }

  function AddTimer(s: State, r: Request): State {
    var needUpdate := s.table == [] || r.when < s.table[0].timer.expiration;
    var table := Insert(s.table, NewEntry(s, r));
    InsertHolds(s.table, NewEntry(s, r));
    s.(table := table, nextStamp := s.nextStamp + 1, born := s.born + [NewEntry(s, r).timer],
       alarm := if needUpdate then ResetTimerfd(table[0].timer.expiration, r.clock) else s.alarm)
  }

  function AddAll(s: State, requests: seq<Request>): State
    decreases |requests|
  {
    if requests == [] then s else AddAll(AddTimer(s, requests[0]), requests[1..])
  }

  function Fire(s: State, e: Entry, now: int): State {
    s.(fired := s.fired + [Firing(e.timer.id, now)])
  }

  /** Fires the entries in order; the i-th callback adds the i-th list of timers. */
  function FireAll(s: State, todo: seq<Entry>, now: int, scripts: seq<seq<Request>>): State
    decreases |todo|
  {
    if todo == [] then s
    else
      var s := Fire(s, todo[0], now);
      if scripts == [] then FireAll(s, todo[1..], now, [])
      else FireAll(AddAll(s, scripts[0]), todo[1..], now, scripts[1..])
  }

  function Renewed(s: State, e: Entry, now: int): Entry {
    Entry(now + e.timer.period, s.nextStamp, e.timer.(expiration := now + e.timer.period))
  }

  /** The loop of `reset`: repeating timers go back into the table, due one period from now. */
  function Rearm(s: State, done: seq<Entry>, now: int): State
    decreases |done|
  {
    if done == [] then s
    else if !done[0].timer.repeat then Rearm(s, done[1..], now)
    else
      Rearm(s.(table := Insert(s.table, Renewed(s, done[0], now)), nextStamp := s.nextStamp + 1), done[1..], now)
  }

  /** The alarm is set even when no timer is left. */
  function SetAlarm(s: State, clock: int): State {
    s.(alarm := ResetTimerfd(if s.table == [] then 0 else s.table[0].timer.expiration, clock))
  }

  function HandleRead(s: State, now: int, scripts: seq<seq<Request>>, clock: int): State {
    var k := LowerBound(s.table, now);
    var taken := s.(table := s.table[k..], alarm := Off);
    SetAlarm(Rearm(FireAll(taken, s.table[..k], now, scripts), s.table[..k], now), clock)
  }

  function Step(s: State, op: Op): State {
    match op
    case Add(request) => AddTimer(s, request)
    case Expire => if s.alarm.Armed? then s.(alarm := Pending) else s
    case Ring(now, scripts, clock) => HandleRead(s, now, scripts, clock)
  }

  function Run(s: State, ops: seq<Op>): State {
    if ops == [] then s else Step(Run(s, ops[..|ops| - 1]), ops[|ops| - 1])
  }

  function Start(): State { State([], Off, 0, [], []) }

  // ---- The invariant ------------------------------------------------------------------------

  /** When a timer first due as `t` says may fire for the (k+1)-th time at the earliest. */
  function Due(t: Timer, k: nat): int { t.expiration + k * t.period }

  lemma DueNext(t: Timer, k: nat)
    ensures Due(t, k + 1) == Due(t, k) + t.period
  {
  }

  function Times(s: State, id: nat): nat { CountFired(s.fired, id) }

  ghost predicate Known(s: State, t: Timer) {
    t.id < |s.born| && t.repeat == s.born[t.id].repeat && t.period == s.born[t.id].period
  }

  /** An entry waiting to fire: its key is its timer's expiration, and that is no earlier than
      the firings so far allow. */
  ghost predicate Waits(s: State, e: Entry) {
    && Known(s, e.timer)
    && e.key == e.timer.expiration
    && Due(s.born[e.timer.id], Times(s, e.timer.id)) <= e.key
  }

  /** An entry that fired in the round at `now` and is not back in the table. */
  ghost predicate Spent(s: State, e: Entry, now: int) {
    && Known(s, e.timer)
    && (e.timer.repeat ==> Due(s.born[e.timer.id], Times(s, e.timer.id)) <= now + e.timer.period)
  }

  /** Each timer is in one place: the table, still to fire, or gone. A repeating one that fired
      waits to go back; a one-shot that fired never does. */
  function Tally(s: State, todo: seq<Entry>, done: seq<Entry>, id: nat): nat
    requires id < |s.born|
  {
    Count(s.table, id) + Count(todo, id) + if s.born[id].repeat then Count(done, id) else Times(s, id)
  }

  ghost predicate TableInv(s: State) {
    Sorted(s.table) && forall e :: e in s.table ==> e.stamp < s.nextStamp
  }

  /** The k-th firing of a timer is later than its first due time plus k - 1 periods. */
  ghost predicate RateInv(s: State) {
    forall j :: 0 <= j < |s.fired| ==>
      var f := s.fired[j];
      f.id < |s.born| && Due(s.born[f.id], CountFired(s.fired[..j], f.id)) < f.at
  }

  /** Every timer is in exactly one place. */
  ghost predicate TallyInv(s: State, todo: seq<Entry>, done: seq<Entry>) {
    forall id {:trigger Tally(s, todo, done, id)} :: 0 <= id < |s.born| ==> Tally(s, todo, done, id) == 1
  }

  ghost predicate AllWait(s: State, entries: seq<Entry>) {
    forall e :: e in entries ==> Waits(s, e)
  }

  ghost predicate AllSpent(s: State, done: seq<Entry>, now: int) {
    forall e :: e in done ==> Spent(s, e, now)
  }

  ghost predicate AllDue(todo: seq<Entry>, now: int) {
    forall e :: e in todo ==> e.key < now
  }

  /** The invariant in the middle of a round at `now`, when `todo` is still to fire and `done`
      has fired; between rounds both are empty. */
  ghost predicate Inv(s: State, todo: seq<Entry>, done: seq<Entry>, now: int) {
    && TableInv(s) && RateInv(s) && TallyInv(s, todo, done)
    && AllWait(s, s.table) && AllWait(s, todo) && AllDue(todo, now) && AllSpent(s, done, now)
  }

  lemma {:induction false} FiredKnown(s: State, fired: seq<Firing>, id: nat)
    requires fired <= s.fired && RateInv(s) && id >= |s.born|
    ensures CountFired(fired, id) == 0
    decreases |fired|
  {
    if fired != [] { FiredKnown(s, fired[..|fired| - 1], id); }
  }

  lemma {:induction false} IdAbsent(entries: seq<Entry>, id: nat)
    requires forall e :: e in entries ==> e.timer.id != id
    ensures Count(entries, id) == 0
  {
    if entries != [] {
      assert forall e :: e in entries[1..] ==> e in entries;
      IdAbsent(entries[1..], id);
    }
  }

  /** Adding timers does not disturb what is known of the older ones. */
  lemma OlderKept(s: State, d: State, entries: seq<Entry>, done: seq<Entry>, now: int)
    requires AllWait(s, entries) && AllSpent(s, done, now)
    requires s.born <= d.born && s.fired == d.fired
    ensures AllWait(d, entries) && AllSpent(d, done, now)
  {
    forall e | e in entries
      ensures Waits(d, e)
    {
      assert Waits(s, e);
    }
    forall e | e in done
      ensures Spent(d, e, now)
    {
      assert Spent(s, e, now);
    }
  }

  lemma RateKept(s: State, d: State)
    requires RateInv(s) && s.born <= d.born && s.fired == d.fired
    ensures RateInv(d)
  {
    forall j | 0 <= j < |d.fired|
      ensures d.fired[j].id < |d.born| && Due(d.born[d.fired[j].id], CountFired(d.fired[..j], d.fired[j].id)) < d.fired[j].at
    {
      assert s.fired[j].id < |s.born| && d.born[s.fired[j].id] == s.born[s.fired[j].id];
    }
  }

  // ---- Adding -------------------------------------------------------------------------------

  lemma InsertKeepsTable(s: State, e: Entry)
    requires TableInv(s) && e.stamp == s.nextStamp
    ensures TableInv(s.(table := Insert(s.table, e), nextStamp := s.nextStamp + 1))
  {
    InsertHolds(s.table, e);
    InsertSorts(s.table, e);
  }

  lemma InsertWaits(s: State, table: seq<Entry>, e: Entry)
    requires AllWait(s, table) && Waits(s, e)
    ensures AllWait(s, Insert(table, e))
  {
    InsertHolds(table, e);
  }

  lemma AddTallies(s: State, r: Request, todo: seq<Entry>, done: seq<Entry>, now: int)
    requires Inv(s, todo, done, now)
    ensures TallyInv(AddTimer(s, r), todo, done)
  {
    hide TableInv;
    hide AllDue;
    var n := |s.born|;
    var d := AddTimer(s, r);
    IdAbsent(s.table, n);
    IdAbsent(todo, n);
    IdAbsent(done, n);
    FiredKnown(s, s.fired, n);
    forall id | 0 <= id < |d.born|
      ensures Tally(d, todo, done, id) == 1
    {
      InsertCounts(s.table, NewEntry(s, r), id);
      assert id < n ==> Tally(s, todo, done, id) == 1 && d.born[id] == s.born[id];
    }
  }

  lemma AddKeeps(s: State, r: Request, todo: seq<Entry>, done: seq<Entry>, now: int)
    requires Inv(s, todo, done, now)
    ensures Inv(AddTimer(s, r), todo, done, now)
  {
    var d := AddTimer(s, r);
    var e := NewEntry(s, r);
    AddTallies(s, r, todo, done, now);
    FiredKnown(s, s.fired, |s.born|);
    RateKept(s, d);
    InsertKeepsTable(s, e);
    hide TallyInv;
    hide RateInv;
    OlderKept(s, d, s.table, done, now);
    OlderKept(s, d, todo, done, now);
    hide AllWait;
    hide AllSpent;
    assert Waits(d, e);
    InsertWaits(d, s.table, e);
  }

  lemma {:induction false} AddAllKeeps(s: State, requests: seq<Request>, todo: seq<Entry>, done: seq<Entry>, now: int)
    requires Inv(s, todo, done, now)
    ensures Inv(AddAll(s, requests), todo, done, now)
    ensures AddAll(s, requests).fired == s.fired
    decreases |requests|
  {
    hide Inv;
    if requests != [] {
      AddKeeps(s, requests[0], todo, done, now);
      AddAllKeeps(AddTimer(s, requests[0]), requests[1..], todo, done, now);
    }
  }

  // ---- Firing -------------------------------------------------------------------------------

  lemma OthersAbsent(entries: seq<Entry>, id: nat)
    requires Count(entries, id) == 0
    ensures forall e :: e in entries ==> e.timer.id != id
  {
    forall e | e in entries
      ensures e.timer.id != id
    {
      IdPresent(entries, e);
    }
  }

  /** The timer about to fire is nowhere else. */
  lemma FiringIsAlone(s: State, todo: seq<Entry>, done: seq<Entry>)
    requires TallyInv(s, todo, done) && todo != [] && Known(s, todo[0].timer)
    ensures var id := todo[0].timer.id;
            && Count(s.table, id) == 0 && Count(todo[1..], id) == 0
            && (if s.born[id].repeat then Count(done, id) == 0 else Times(s, id) == 0)
  {
    assert Tally(s, todo, done, todo[0].timer.id) == 1;
  }

  lemma FiredSnoc(fired: seq<Firing>, f: Firing, id: nat)
    ensures CountFired(fired + [f], id) == CountFired(fired, id) + if f.id == id then 1 else 0
  {
    assert (fired + [f])[..|fired|] == fired;
  }

  lemma FireTimes(s: State, e: Entry, now: int, id: nat)
    ensures Times(Fire(s, e, now), id) == Times(s, id) + if e.timer.id == id then 1 else 0
  {
    FiredSnoc(s.fired, Firing(e.timer.id, now), id);
  }

  lemma CountMove(todo: seq<Entry>, done: seq<Entry>, id: nat)
    requires todo != []
    ensures Count(todo, id) == Count(todo[1..], id) + if todo[0].timer.id == id then 1 else 0
    ensures Count(done + [todo[0]], id) == Count(done, id) + if todo[0].timer.id == id then 1 else 0
  {
    CountAppend(done, [todo[0]], id);
  }

  lemma FireKeepsRate(s: State, e: Entry, now: int)
    requires RateInv(s) && Waits(s, e) && e.key < now
    ensures RateInv(Fire(s, e, now))
  {
    var d := Fire(s, e, now);
    forall j | 0 <= j < |d.fired|
      ensures d.fired[j].id < |d.born| && Due(d.born[d.fired[j].id], CountFired(d.fired[..j], d.fired[j].id)) < d.fired[j].at
    {
      assert d.fired[..j] == s.fired[..j];
      if j == |s.fired| { assert s.fired[..j] == s.fired; }
    }
  }

  /** Firing moves a timer from one place to another. */
  lemma FireTally(s: State, todo: seq<Entry>, done: seq<Entry>, now: int, id: nat)
    requires todo != [] && id < |s.born| && Known(s, todo[0].timer)
    ensures Tally(Fire(s, todo[0], now), todo[1..], done + [todo[0]], id) == Tally(s, todo, done, id)
  {
    hide Count;
    hide CountFired;
    FireTimes(s, todo[0], now, id);
    CountMove(todo, done, id);
  }

  lemma FireTallies(s: State, todo: seq<Entry>, done: seq<Entry>, now: int)
    requires TallyInv(s, todo, done) && todo != [] && Known(s, todo[0].timer)
    ensures TallyInv(Fire(s, todo[0], now), todo[1..], done + [todo[0]])
  {
    forall id | 0 <= id < |s.born|
      ensures Tally(Fire(s, todo[0], now), todo[1..], done + [todo[0]], id) == 1
    {
      FireTally(s, todo, done, now, id);
    }
  }

  /** Entries of other timers wait as before. */
  lemma OthersWait(s: State, f: Entry, now: int, entries: seq<Entry>)
    requires AllWait(s, entries) && Count(entries, f.timer.id) == 0
    ensures AllWait(Fire(s, f, now), entries)
  {
    OthersAbsent(entries, f.timer.id);
    hide CountFired;
    forall e | e in entries
      ensures Waits(Fire(s, f, now), e)
    {
      assert Waits(s, e);
      FireTimes(s, f, now, e.timer.id);
    }
  }

  lemma FiredIsSpent(s: State, f: Entry, now: int)
    requires Waits(s, f) && f.key < now
    ensures Spent(Fire(s, f, now), f, now)
  {
    FireTimes(s, f, now, f.timer.id);
    DueNext(s.born[f.timer.id], Times(s, f.timer.id));
  }

  lemma OthersSpent(s: State, f: Entry, now: int, done: seq<Entry>)
    requires AllSpent(s, done, now) && Waits(s, f) && f.key < now
    requires s.born[f.timer.id].repeat ==> Count(done, f.timer.id) == 0
    ensures AllSpent(Fire(s, f, now), done + [f], now)
  {
    FiredIsSpent(s, f, now);
    if s.born[f.timer.id].repeat { OthersAbsent(done, f.timer.id); }
    forall e | e in done + [f]
      ensures Spent(Fire(s, f, now), e, now)
    {
      if e in done {
        assert Spent(s, e, now);
        FireTimes(s, f, now, e.timer.id);
      }
    }
  }

  lemma FireKeeps(s: State, todo: seq<Entry>, done: seq<Entry>, now: int)
    requires Inv(s, todo, done, now) && todo != []
    ensures Inv(Fire(s, todo[0], now), todo[1..], done + [todo[0]], now)
  {
    var f := todo[0];
    assert f in todo && Waits(s, f) && f.key < now;
    assert AllWait(s, todo[1..]) && AllDue(todo[1..], now);
    hide AllWait;
    hide AllDue;
    hide AllSpent;
    hide RateInv;
    FiringIsAlone(s, todo, done);
    FireKeepsRate(s, f, now);
    FireTallies(s, todo, done, now);
    hide TallyInv;
    OthersWait(s, f, now, s.table);
    OthersWait(s, f, now, todo[1..]);
    OthersSpent(s, f, now, done);
  }

  function Firings(entries: seq<Entry>, now: int): seq<Firing> {
    seq(|entries|, i requires 0 <= i < |entries| => Firing(entries[i].timer.id, now))
  }

  lemma {:induction false} FireAllKeeps(s: State, todo: seq<Entry>, done: seq<Entry>, now: int, scripts: seq<seq<Request>>)
    requires Inv(s, todo, done, now)
    ensures Inv(FireAll(s, todo, now, scripts), [], done + todo, now)
    ensures FireAll(s, todo, now, scripts).fired == s.fired + Firings(todo, now)
    decreases |todo|
  {
    hide Inv;
    if todo == [] {
      assert done + todo == done;
    } else {
      var d := Fire(s, todo[0], now);
      var rest, fired := todo[1..], done + [todo[0]];
      FireKeeps(s, todo, done, now);
      assert done + todo == fired + rest;
      assert Firings(todo, now) == [Firing(todo[0].timer.id, now)] + Firings(rest, now);
      if scripts == [] {
        FireAllKeeps(d, rest, fired, now, []);
      } else {
        AddAllKeeps(d, scripts[0], rest, fired, now);
        FireAllKeeps(AddAll(d, scripts[0]), rest, fired, now, scripts[1..]);
      }
    }
  }

  // ---- Rearming -----------------------------------------------------------------------------

  /** Putting one repeating timer back. */
  lemma RearmOne(s: State, done: seq<Entry>, now: int, d: State)
    requires Inv(s, [], done, now) && done != [] && done[0].timer.repeat
    requires d == s.(table := Insert(s.table, Renewed(s, done[0], now)), nextStamp := s.nextStamp + 1)
    ensures Inv(d, [], done[1..], now)
  {
    var e := Renewed(s, done[0], now);
    assert done[0] in done && Spent(s, done[0], now);
    assert AllSpent(s, done[1..], now);
    InsertKeepsTable(s, e);
    InsertWaits(s, s.table, e);
    OlderKept(s, d, Insert(s.table, e), done[1..], now);
    RateKept(s, d);
    hide AllWait;
    hide AllSpent;
    hide RateInv;
    hide TableInv;
    forall id | 0 <= id < |d.born|
      ensures Tally(d, [], done[1..], id) == 1
    {
      assert Tally(s, [], done, id) == 1;
      InsertCounts(s.table, e, id);
    }
  }

  lemma DropOne(s: State, done: seq<Entry>, now: int)
    requires Inv(s, [], done, now) && done != [] && !done[0].timer.repeat
    ensures Inv(s, [], done[1..], now)
  {
    assert done[0] in done && Spent(s, done[0], now);
    assert AllSpent(s, done[1..], now);
    hide AllSpent;
    forall id | 0 <= id < |s.born|
      ensures Tally(s, [], done[1..], id) == 1
    {
      assert Tally(s, [], done, id) == 1;
    }
  }

  lemma {:induction false} RearmKeeps(s: State, done: seq<Entry>, now: int)
    requires Inv(s, [], done, now)
    ensures Inv(Rearm(s, done, now), [], [], now)
    ensures Rearm(s, done, now).fired == s.fired
    decreases |done|
  {
    hide Inv;
    if done != [] {
      if done[0].timer.repeat {
        var d := s.(table := Insert(s.table, Renewed(s, done[0], now)), nextStamp := s.nextStamp + 1);
        RearmOne(s, done, now, d);
        RearmKeeps(d, done[1..], now);
      } else {
        DropOne(s, done, now);
        RearmKeeps(s, done[1..], now);
      }
    }
  }

  lemma TakeKeeps(s: State, now: int, k: nat, d: State)
    requires Inv(s, [], [], now) && k == LowerBound(s.table, now)
    requires d == s.(table := s.table[k..], alarm := Off)
    ensures Inv(d, s.table[..k], [], now)
  {
    SplitsAtNow(s.table, now);
    assert AllDue(s.table[..k], now);
    assert AllWait(s, s.table[..k]) && AllWait(s, s.table[k..]);
    OlderKept(s, d, s.table[..k], [], now);
    OlderKept(s, d, s.table[k..], [], now);
    RateKept(s, d);
    assert TableInv(d);
    hide AllWait;
    hide TableInv;
    hide RateInv;
    assert s.table[..k] + s.table[k..] == s.table;
    forall id | 0 <= id < |d.born|
      ensures Tally(d, s.table[..k], [], id) == 1
    {
      CountAppend(s.table[..k], s.table[k..], id);
      assert Tally(s, [], [], id) == 1;
    }
  }

  /** Setting the alarm is no concern of the timers. */
  lemma AlarmAside(s: State, d: State, now: int)
    requires Inv(s, [], [], now) && d == s.(alarm := d.alarm)
    ensures forall later :: Inv(d, [], [], later)
  {
    RateKept(s, d);
    OlderKept(s, d, s.table, [], now);
    hide AllWait;
    hide RateInv;
    forall id | 0 <= id < |d.born|
      ensures Tally(d, [], [], id) == 1
    {
      assert Tally(s, [], [], id) == 1;
    }
  }

  // ---- Runs ---------------------------------------------------------------------------------

  ghost predicate Sound(s: State) { Inv(s, [], [], 0) }

  /** A round fires exactly the timers due strictly before `now`, in table order, and nothing
      its callbacks add; afterwards the queue is sound again. */
  lemma RoundKeeps(s: State, now: int, scripts: seq<seq<Request>>, clock: int)
    requires Sound(s)
    ensures Sound(HandleRead(s, now, scripts, clock))
    ensures HandleRead(s, now, scripts, clock).fired
            == s.fired + Firings(s.table[..LowerBound(s.table, now)], now)
  {
    hide Inv;
    var k := LowerBound(s.table, now);
    var taken := s.(table := s.table[k..], alarm := Off);
    var expired := s.table[..k];
    AlarmAside(s, s, 0);
    TakeKeeps(s, now, k, taken);
    FireAllKeeps(taken, expired, [], now, scripts);
    assert [] + expired == expired;
    var fired := FireAll(taken, expired, now, scripts);
    RearmKeeps(fired, expired, now);
    AlarmAside(Rearm(fired, expired, now), HandleRead(s, now, scripts, clock), now);
  }

  lemma StepKeeps(s: State, op: Op)
    requires Sound(s)
    ensures Sound(Step(s, op))
  {
    hide Inv;
    match op
    case Add(request) => AddKeeps(s, request, [], [], 0);
    case Expire => AlarmAside(s, Step(s, op), 0);
    case Ring(now, scripts, clock) => RoundKeeps(s, now, scripts, clock);
  }

  lemma {:induction false} SoundHolds(ops: seq<Op>)
    ensures Sound(Run(Start(), ops))
  {
    if ops != [] {
      SoundHolds(ops[..|ops| - 1]);
      StepKeeps(Run(Start(), ops[..|ops| - 1]), ops[|ops| - 1]);
    }
  }

  /** Timers are conserved over every run, for every clock and every timer added by a callback:
      a repeating timer is in the table exactly once; a one-shot is in the table once and has
      not fired, or has fired once and is gone; and every key is its timer's expiration. */
  lemma TimersAreConserved(ops: seq<Op>, id: nat)
    requires id < |Run(Start(), ops).born|
    ensures var s := Run(Start(), ops);
            && (s.born[id].repeat ==> Count(s.table, id) == 1)
            && (!s.born[id].repeat ==> Count(s.table, id) + Times(s, id) == 1)
            && (forall e :: e in s.table ==> e.key == e.timer.expiration)
            && Sorted(s.table)
  {
    SoundHolds(ops);
    var s := Run(Start(), ops);
    assert Tally(s, [], [], id) == 1;
    assert forall e :: e in s.table ==> Waits(s, e);
  }

  /** In every run, each round splits the table exactly at `now` and fires the part before it,
      by expiration and, among equals, by insertion. */
  lemma RoundFiresTheDue(ops: seq<Op>, now: int, scripts: seq<seq<Request>>, clock: int)
    ensures var s := Run(Start(), ops);
            var k := LowerBound(s.table, now);
            && (forall i :: 0 <= i < |s.table| ==> (i < k <==> s.table[i].timer.expiration < now))
            && (forall i, j :: 0 <= i < j < k ==> Before(s.table[i], s.table[j]))
            && HandleRead(s, now, scripts, clock).fired == s.fired + Firings(s.table[..k], now)
  {
    SoundHolds(ops);
    var s := Run(Start(), ops);
    SplitsAtNow(s.table, now);
    assert forall i :: 0 <= i < |s.table| ==> Waits(s, s.table[i]);
    RoundKeeps(s, now, scripts, clock);
  }

  /** No timer runs fast: whatever the clock does, the firing that follows k earlier ones of the
      same timer comes strictly later than its first due time plus k periods. */
  lemma RateIsBounded(ops: seq<Op>, j: nat)
    requires j < |Run(Start(), ops).fired|
    ensures var s := Run(Start(), ops);
            var f := s.fired[j];
            && f.id < |s.born|
            && s.born[f.id].expiration + CountFired(s.fired[..j], f.id) * s.born[f.id].period < f.at
  {
    SoundHolds(ops);
  }

  // ---- Exactly what a round leaves ----------------------------------------------------------

  function TimersOf(table: seq<Entry>): set<Timer> {
    set e | e in table :: e.timer
  }

  lemma InsertedTimers(table: seq<Entry>, e: Entry)
    ensures TimersOf(Insert(table, e)) == TimersOf(table) + {e.timer}
  {
    InsertHolds(table, e);
    assert forall x :: x in table ==> x in Insert(table, e);
    assert e in Insert(table, e);
  }

  /** The timers a list of requests creates, numbered from `n`. */
  function Created(n: nat, requests: seq<Request>): seq<Timer> {
    seq(|requests|, i requires 0 <= i < |requests| =>
      Timer(n + i, requests[i].when, requests[i].repeat, requests[i].period))
  }

  lemma CreatedTwice(n: nat, a: seq<Request>, b: seq<Request>)
    ensures Created(n, a + b) == Created(n, a) + Created(n + |a|, b)
  {
  }

  function SetOf(timers: seq<Timer>): set<Timer> {
    set t | t in timers
  }

  lemma SetOfBoth(a: seq<Timer>, b: seq<Timer>)
    ensures SetOf(a + b) == SetOf(a) + SetOf(b)
  {
  }

  lemma AddTimerAdds(s: State, r: Request)
    ensures var d := AddTimer(s, r);
            && d.born == s.born + [NewEntry(s, r).timer] && d.fired == s.fired
            && d.nextStamp == s.nextStamp + 1
            && (forall e :: e in d.table <==> e == NewEntry(s, r) || e in s.table)
            && TimersOf(d.table) == TimersOf(s.table) + {NewEntry(s, r).timer}
  {
    InsertHolds(s.table, NewEntry(s, r));
    InsertedTimers(s.table, NewEntry(s, r));
  }

  /** `d` is `s` with these timers added, as far as the timers go. */
  ghost predicate Grown(s: State, created: seq<Timer>, d: State) {
    d.born == s.born + created && TimersOf(d.table) == TimersOf(s.table) + SetOf(created)
  }

  lemma GrownByNone(s: State)
    ensures Grown(s, [], s)
  {
  }

  lemma GrownTwice(s: State, a: seq<Timer>, d: State, b: seq<Timer>, e: State)
    requires Grown(s, a, d) && Grown(d, b, e)
    ensures Grown(s, a + b, e)
  {
    hide TimersOf;
    SetOfBoth(a, b);
    hide SetOf;
  }

  lemma GrownByOne(s: State, r: Request)
    ensures Grown(s, [NewEntry(s, r).timer], AddTimer(s, r))
  {
    AddTimerAdds(s, r);
    hide TimersOf;
    hide AddTimer;
    assert SetOf([NewEntry(s, r).timer]) == {NewEntry(s, r).timer};
  }

  lemma {:induction false} AddAllAdds(s: State, requests: seq<Request>)
    ensures Grown(s, Created(|s.born|, requests), AddAll(s, requests))
    ensures |AddAll(s, requests).born| == |s.born| + |requests|
    decreases |requests|
  {
    hide Grown;
    GrownByNone(s);
    if requests == [] {
      assert Created(|s.born|, requests) == [];
    } else {
      var d := AddTimer(s, requests[0]);
      var added := NewEntry(s, requests[0]).timer;
      var rest := Created(|s.born| + 1, requests[1..]);
      assert |d.born| == |s.born| + 1;
      hide AddTimer;
      GrownByOne(s, requests[0]);
      AddAllAdds(d, requests[1..]);
      assert Created(|s.born|, requests) == [added] + rest;
      GrownTwice(s, [added], d, rest, AddAll(d, requests[1..]));
    }
  }

  /** The requests the callbacks of a round of `n` timers make, in order. */
  function Requests(n: nat, scripts: seq<seq<Request>>): seq<Request>
    decreases |scripts|
  {
    if n == 0 || scripts == [] then [] else scripts[0] + Requests(n - 1, scripts[1..])
  }

  lemma GrownAfterFiring(s: State, e: Entry, now: int, created: seq<Timer>, d: State)
    requires Grown(Fire(s, e, now), created, d)
    ensures Grown(s, created, d)
  {
  }

  lemma {:induction false} FireAllAdds(s: State, todo: seq<Entry>, now: int, scripts: seq<seq<Request>>)
    ensures Grown(s, Created(|s.born|, Requests(|todo|, scripts)), FireAll(s, todo, now, scripts))
    decreases |todo|
  {
    hide Grown;
    hide AddAll;
    if todo == [] {
      assert Created(|s.born|, Requests(|todo|, scripts)) == [];
      GrownByNone(s);
    } else {
      var d := Fire(s, todo[0], now);
      var script, more := if scripts == [] then [] else scripts[0], if scripts == [] then [] else scripts[1..];
      var e := AddAll(d, script);
      var rest := Requests(|todo| - 1, more);
      NothingAdded(d);
      FiredRequests(|todo|, scripts, script, more);
      AddAllAdds(d, script);
      FireAllAdds(e, todo[1..], now, more);
      CreatedTwice(|s.born|, script, rest);
      var one, two := Created(|s.born|, script), Created(|s.born| + |script|, rest);
      GrownAfterFiring(s, todo[0], now, one, e);
      GrownTwice(s, one, e, two, FireAll(e, todo[1..], now, more));
    }
  }

  lemma NothingAdded(s: State)
    ensures AddAll(s, []) == s
  {
  }

  lemma FiredRequests(n: nat, scripts: seq<seq<Request>>, script: seq<Request>, more: seq<seq<Request>>)
    requires n > 0 && (if scripts == [] then script == [] && more == [] else script == scripts[0] && more == scripts[1..])
    ensures Requests(n, scripts) == script + Requests(n - 1, more)
  {
  }

  function RenewedTimers(done: seq<Entry>, now: int): set<Timer> {
    set e | e in done && e.timer.repeat :: e.timer.(expiration := now + e.timer.period)
  }

  lemma RenewedCons(done: seq<Entry>, now: int)
    requires done != []
    ensures RenewedTimers(done, now)
            == RenewedTimers(done[1..], now)
               + if done[0].timer.repeat then {done[0].timer.(expiration := now + done[0].timer.period)} else {}
  {
    assert forall e :: e in done <==> e == done[0] || e in done[1..];
  }

  lemma RearmOneRenews(s: State, done: seq<Entry>, now: int, d: State)
    requires done != [] && done[0].timer.repeat
    requires d == s.(table := Insert(s.table, Renewed(s, done[0], now)), nextStamp := s.nextStamp + 1)
    ensures TimersOf(s.table) + RenewedTimers(done, now) == TimersOf(d.table) + RenewedTimers(done[1..], now)
  {
    RenewedCons(done, now);
    InsertedTimers(s.table, Renewed(s, done[0], now));
    hide TimersOf;
    hide RenewedTimers;
    hide Insert;
  }

  lemma {:induction false} RearmRenews(s: State, done: seq<Entry>, now: int)
    ensures Rearm(s, done, now).born == s.born
    ensures TimersOf(Rearm(s, done, now).table) == TimersOf(s.table) + RenewedTimers(done, now)
    decreases |done|
  {
    if done == [] {
      assert RenewedTimers(done, now) == {};
    } else {
      RenewedCons(done, now);
      hide TimersOf;
      hide RenewedTimers;
      hide Insert;
      if done[0].timer.repeat {
        var d := s.(table := Insert(s.table, Renewed(s, done[0], now)), nextStamp := s.nextStamp + 1);
        RearmOneRenews(s, done, now, d);
        RearmRenews(d, done[1..], now);
      } else {
        RearmRenews(s, done[1..], now);
      }
    }
  }

  /** After a round the table holds the timers that were not due, those the callbacks asked for,
      and the due repeating ones, each one period after `now`; nothing else. */
  lemma RoundLeaves(s: State, now: int, scripts: seq<seq<Request>>, clock: int)
    ensures var k := LowerBound(s.table, now);
            var created := Created(|s.born|, Requests(k, scripts));
            var d := HandleRead(s, now, scripts, clock);
            && d.born == s.born + created
            && TimersOf(d.table)
               == TimersOf(s.table[k..]) + SetOf(created) + RenewedTimers(s.table[..k], now)
  {
    var k := LowerBound(s.table, now);
    var taken := s.(table := s.table[k..], alarm := Off);
    FireAllAdds(taken, s.table[..k], now, scripts);
    RearmRenews(FireAll(taken, s.table[..k], now, scripts), s.table[..k], now);
  }

  /** How many of the entries repeat. */
  function Repeats(done: seq<Entry>): nat {
    if done == [] then 0 else Repeats(done[1..]) + if done[0].timer.repeat then 1 else 0
  }

  /** The entry a repeating timer gets: one period from now, stamped `stamp`. */
  function RenewedEntry(e: Entry, now: int, stamp: nat): Entry {
    Entry(now + e.timer.period, stamp, e.timer.(expiration := now + e.timer.period))
  }

  lemma {:induction false} RearmKeepsEntries(s: State, done: seq<Entry>, now: int, e: Entry)
    requires e in s.table
    ensures e in Rearm(s, done, now).table
    decreases |done|
  {
    if done != [] {
      InsertHolds(s.table, Renewed(s, done[0], now));
      var d := if done[0].timer.repeat
               then s.(table := Insert(s.table, Renewed(s, done[0], now)), nextStamp := s.nextStamp + 1) else s;
      RearmKeepsEntries(d, done[1..], now, e);
    }
  }

  /** The repeating timers of a round go back in the order they fired. */
  lemma {:induction false} RearmStamps(s: State, done: seq<Entry>, now: int, i: nat)
    requires i < |done| && done[i].timer.repeat
    ensures RenewedEntry(done[i], now, s.nextStamp + Repeats(done[..i])) in Rearm(s, done, now).table
    decreases |done|
  {
    InsertHolds(s.table, Renewed(s, done[0], now));
    var d := if done[0].timer.repeat
             then s.(table := Insert(s.table, Renewed(s, done[0], now)), nextStamp := s.nextStamp + 1) else s;
    if i == 0 {
      assert Renewed(s, done[0], now) == RenewedEntry(done[0], now, s.nextStamp);
      RearmKeepsEntries(d, done[1..], now, Renewed(s, done[0], now));
    } else {
      RearmStamps(d, done[1..], now, i - 1);
      assert done[..i][1..] == done[1..][..i - 1];
    }
  }

  lemma {:induction false} RepeatsGrow(done: seq<Entry>, i: nat, j: nat)
    requires i < j <= |done| && done[i].timer.repeat
    ensures Repeats(done[..i]) < Repeats(done[..j])
    decreases |done|
  {
    assert done[..j][1..] == done[1..][..j - 1];
    if i > 0 {
      assert done[..i][1..] == done[1..][..i - 1];
      RepeatsGrow(done[1..], i - 1, j - 1);
    }
  }

  lemma RearmInOrder(s: State, done: seq<Entry>, now: int, i: nat, j: nat) returns (a: Entry, b: Entry)
    requires i < j < |done| && done[i].timer.period == done[j].timer.period
    requires done[i].timer.repeat && done[j].timer.repeat
    ensures a in Rearm(s, done, now).table && b in Rearm(s, done, now).table && Before(a, b)
    ensures a.timer.id == done[i].timer.id && b.timer.id == done[j].timer.id
    ensures a.key == b.key == now + done[i].timer.period
  {
    hide Rearm;
    hide Repeats;
    RearmStamps(s, done, now, i);
    RearmStamps(s, done, now, j);
    RepeatsGrow(done, i, j);
    a := RenewedEntry(done[i], now, s.nextStamp + Repeats(done[..i]));
    b := RenewedEntry(done[j], now, s.nextStamp + Repeats(done[..j]));
  }

  lemma RoundInOrder(s: State, now: int, scripts: seq<seq<Request>>, clock: int, i: nat, j: nat)
    returns (a: Entry, b: Entry)
    requires i < j < LowerBound(s.table, now) && s.table[i].timer.period == s.table[j].timer.period
    requires s.table[i].timer.repeat && s.table[j].timer.repeat
    ensures a in HandleRead(s, now, scripts, clock).table && b in HandleRead(s, now, scripts, clock).table
    ensures Before(a, b) && a.timer.id == s.table[i].timer.id && b.timer.id == s.table[j].timer.id
    ensures a.key == b.key == now + s.table[i].timer.period
  {
    var k := LowerBound(s.table, now);
    var done := s.table[..k];
    var fired := FireAll(s.(table := s.table[k..], alarm := Off), done, now, scripts);
    assert HandleRead(s, now, scripts, clock).table == Rearm(fired, done, now).table;
    assert done[i] == s.table[i] && done[j] == s.table[j];
    hide *;
    a, b := RearmInOrder(fired, done, now, i, j);
  }

  /** In every run, repeating timers of the same period that fire in the same round stand in the
      table afterwards in the order they fired. */
  lemma RenewedKeepTheirOrder(ops: seq<Op>, now: int, scripts: seq<seq<Request>>, clock: int, i: nat, j: nat)
    returns (p: nat, q: nat)
    requires var s := Run(Start(), ops);
             && i < j < LowerBound(s.table, now) && s.table[i].timer.period == s.table[j].timer.period
             && s.table[i].timer.repeat && s.table[j].timer.repeat
    ensures var s, d := Run(Start(), ops), HandleRead(Run(Start(), ops), now, scripts, clock);
            && p < q < |d.table|
            && d.table[p].timer.id == s.table[i].timer.id && d.table[q].timer.id == s.table[j].timer.id
            && d.table[p].key == d.table[q].key == now + s.table[i].timer.period
  {
    hide *;
    var s := Run(Start(), ops);
    var a, b := RoundInOrder(s, now, scripts, clock, i, j);
    RoundIsSorted(ops, now, scripts, clock);
    p, q := PlacedInOrder(HandleRead(s, now, scripts, clock).table, a, b);
  }

  lemma PlacedInOrder(table: seq<Entry>, a: Entry, b: Entry) returns (p: nat, q: nat)
    requires Sorted(table) && a in table && b in table && Before(a, b)
    ensures p < q < |table| && table[p] == a && table[q] == b
  {
    p :| 0 <= p < |table| && table[p] == a;
    q :| 0 <= q < |table| && table[q] == b;
    assert q < p ==> Before(table[q], table[p]);
  }

  lemma RoundIsSorted(ops: seq<Op>, now: int, scripts: seq<seq<Request>>, clock: int)
    ensures Sorted(HandleRead(Run(Start(), ops), now, scripts, clock).table)
  {
    assert (ops + [Ring(now, scripts, clock)])[..|ops|] == ops;
    SoundHolds(ops + [Ring(now, scripts, clock)]);
    hide HandleRead;
  }

  // ---- The alarm over runs ------------------------------------------------------------------

  ghost predicate AlarmInv(s: State) {
    s.table != [] ==>
      s.alarm.Pending? || (s.alarm.Armed? && s.alarm == ResetTimerfd(s.table[0].key, s.alarm.armedAt))
  }

  lemma StepKeepsAlarm(s: State, op: Op)
    requires Sound(s) && AlarmInv(s)
    ensures AlarmInv(Step(s, op))
  {
    var d := Step(s, op);
    StepKeeps(s, op);
    assert d.table != [] ==> Waits(d, d.table[0]);
    assert s.table != [] ==> Waits(s, s.table[0]);
    if op.Add? {
      InsertHolds(s.table, NewEntry(s, op.request));
    }
  }

  lemma {:induction false} AlarmHolds(ops: seq<Op>)
    ensures AlarmInv(Run(Start(), ops))
  {
    if ops != [] {
      AlarmHolds(ops[..|ops| - 1]);
      SoundHolds(ops[..|ops| - 1]);
      StepKeepsAlarm(Run(Start(), ops[..|ops| - 1]), ops[|ops| - 1]);
    }
  }

  /** Between operations of every run, a waiting timer means the alarm has gone off or is set:
      for the earliest expiration in the table, but no sooner than 100 microseconds after it
      was set, with a well-formed non-zero timespec. */
  lemma AlarmIsSet(ops: seq<Op>)
    ensures var s := Run(Start(), ops);
            s.table != [] ==>
              || s.alarm.Pending?
              || (&& s.alarm.Armed?
                  && s.alarm.armedAt + Micros(s.alarm.spec)
                     == Max(s.table[0].timer.expiration, s.alarm.armedAt + 100)
                  && 0 <= s.alarm.spec.nsec < 1_000_000_000 && s.alarm.spec != Timespec(0, 0)
                  && forall e :: e in s.table ==> s.table[0].timer.expiration <= e.timer.expiration)
  {
    var s := Run(Start(), ops);
    AlarmHolds(ops);
    SoundHolds(ops);
    if s.table != [] && s.alarm.Armed? {
      AlarmTarget(s.table[0].key, s.alarm.armedAt);
      assert forall i :: 0 <= i < |s.table| ==> Waits(s, s.table[i]);
      assert forall i :: 0 < i < |s.table| ==> Before(s.table[0], s.table[i]);
    }
  }

  /** In every run, adding a timer sets the alarm, for the timer, exactly when it is due before
      every other; otherwise the alarm is left alone. */
  lemma AddSetsTheAlarmWhen(ops: seq<Op>, r: Request)
    ensures var s := Run(Start(), ops);
            AddTimer(s, r).alarm ==
              if forall e :: e in s.table ==> r.when < e.key then ResetTimerfd(r.when, r.clock) else s.alarm
  {
    SoundHolds(ops);
    var s := Run(Start(), ops);
    InsertHolds(s.table, NewEntry(s, r));
    assert s.table != [] ==> Waits(s, s.table[0]);
    forall e | e in s.table
      ensures s.table[0].key <= e.key
    {
      var i :| 0 <= i < |s.table| && s.table[i] == e;
      assert i > 0 ==> Before(s.table[0], s.table[i]);
    }
    hide Run;
    hide Insert;
    hide RateInv;
    hide TallyInv;
  }

  /** The alarm is set after every round, whatever the table holds: without a timer it is set for
      time zero, so it goes off again 100 microseconds later, or at time zero if that is still
      to come. */
  lemma RoundAlwaysSetsTheAlarm(ops: seq<Op>, now: int, scripts: seq<seq<Request>>, clock: int)
    ensures var d := Run(Start(), ops + [Ring(now, scripts, clock)]);
            && d.alarm.Armed? && d.alarm.armedAt == clock
            && (d.table == [] ==> clock + Micros(d.alarm.spec) == Max(0, clock + 100))
  {
    assert (ops + [Ring(now, scripts, clock)])[..|ops|] == ops;
    AlarmTarget(0, clock);
  }

  lemma OneTimerFires(s: State, now: int, clock: int)
    requires |s.table| == 1 && s.table[0].key < now && !s.table[0].timer.repeat
    ensures var d := HandleRead(s, now, [], clock);
            d.table == [] && d.alarm.Armed? && d.fired == s.fired + [Firing(s.table[0].timer.id, now)]
  {
    assert s.table[1..] == [] && LowerBound(s.table[1..], now) == 0;
    assert LowerBound(s.table, now) == 1 && s.table[..1] == s.table;
    var taken := s.(table := [], alarm := Off);
    var d := Fire(taken, s.table[0], now);
    assert FireAll(taken, s.table, now, []) == FireAll(d, s.table[1..], now, []) == d;
    assert Rearm(d, s.table, now) == Rearm(d, s.table[1..], now) == d;
  }

  /** A run that ends so: one timer, not repeating, whose alarm goes off and whose round leaves
      the table empty with the alarm set. */
  lemma EmptyTableIsArmed(t: int, added: int, now: int, clock: int)
    requires t < now
    ensures var d := Run(Start(), [Add(Request(t, false, 0, added)), Expire, Ring(now, [], clock)]);
            d.table == [] && d.alarm.Armed? && d.fired == [Firing(0, now)]
  {
    var r := Request(t, false, 0, added);
    var ops := [Add(r), Expire, Ring(now, [], clock)];
    assert ops[..2] == [Add(r), Expire] && [Add(r), Expire][..1] == [Add(r)] && [Add(r)][..0] == [];
    var s1 := AddTimer(Start(), r);
    assert Run(Start(), [Add(r)]) == s1;
    assert s1.table == [NewEntry(Start(), r)] && s1.alarm.Armed?;
    var s2 := s1.(alarm := Pending);
    assert Run(Start(), [Add(r), Expire]) == s2;
    OneTimerFires(s2, now, clock);
  }

  /** Two timers for the same time are both kept, and fire in the order they were added. */
  lemma EqualTimesBothFire(ops: seq<Op>, first: Request, second: Request, now: int, scripts: seq<seq<Request>>, clock: int)
    returns (i: nat, j: nat)
    requires first.when == second.when < now
    ensures var s := AddTimer(AddTimer(Run(Start(), ops), first), second);
            var n := |Run(Start(), ops).born|;
            var d := HandleRead(s, now, scripts, clock);
            && i < j < |s.table| && s.table[i].timer.id == n && s.table[j].timer.id == n + 1
            && |s.fired| + j < |d.fired|
            && d.fired[|s.fired| + i] == Firing(n, now) && d.fired[|s.fired| + j] == Firing(n + 1, now)
  {
    hide Inv;
    hide Run;
    hide AddTimer;
    hide HandleRead;
    var s0 := Run(Start(), ops);
    var s1 := AddTimer(s0, first);
    var s := AddTimer(s1, second);
    SoundHolds(ops);
    AddTimerAdds(s0, first);
    AddTimerAdds(s1, second);
    AddKeeps(s0, first, [], [], 0);
    AddKeeps(s1, second, [], [], 0);
    i, j := SameTimeInOrder(s, NewEntry(s0, first), NewEntry(s1, second));
    FiresAt(s, now, scripts, clock, i);
    FiresAt(s, now, scripts, clock, j);
  }

  lemma SameTimeInOrder(s: State, a: Entry, b: Entry) returns (i: nat, j: nat)
    requires Sound(s) && a in s.table && b in s.table && a.key == b.key && a.stamp < b.stamp
    ensures i < j < |s.table| && s.table[i] == a && s.table[j] == b
  {
    i :| 0 <= i < |s.table| && s.table[i] == a;
    j :| 0 <= j < |s.table| && s.table[j] == b;
    assert Sorted(s.table) && !Before(b, a);
  }

  lemma FiresAt(s: State, now: int, scripts: seq<seq<Request>>, clock: int, i: nat)
    requires Sound(s) && i < |s.table| && s.table[i].key < now
    ensures var d := HandleRead(s, now, scripts, clock);
            |s.fired| + i < |d.fired| && d.fired[|s.fired| + i] == Firing(s.table[i].timer.id, now)
  {
    SplitsAtNow(s.table, now);
    RoundKeeps(s, now, scripts, clock);
    hide HandleRead;
  }

  // ---- The queue object ---------------------------------------------------------------------

  class TimerQueue {
    var timers: seq<Entry>
    var alarm: Alarm
    var nextStamp: nat
    var born: seq<Timer>
    var fired: seq<Firing>

    ghost function View(): State
      reads this
    {
      State(timers, alarm, nextStamp, born, fired)
    }

    constructor ()
      ensures View() == Start()
    {
      timers, alarm, nextStamp, born, fired := [], Off, 0, [], [];
    }

    method AddTimerInLoop(r: Request)
      modifies this
      ensures View() == AddTimer(old(View()), r)
    {
      var needUpdate := false;
      if timers == [] || r.when < timers[0].timer.expiration {
        needUpdate := true;
      }
      var timer := Timer(|born|, r.when, r.repeat, r.period);
      InsertHolds(timers, Entry(r.when, nextStamp, timer));
      timers := Insert(timers, Entry(r.when, nextStamp, timer));
      born, nextStamp := born + [timer], nextStamp + 1;
      if needUpdate {
        alarm := ResetTimerfd(timers[0].timer.expiration, r.clock);
      }
    }

    /** Moves the entries before the lower bound out of the table. */
    method GetExpired(now: int) returns (expired: seq<Entry>)
      modifies this`timers
      ensures expired == old(timers)[..LowerBound(old(timers), now)]
      ensures timers == old(timers)[LowerBound(old(timers), now)..]
    {
      expired := [];
      var rest := timers;
      while rest != [] && rest[0].key < now
        invariant expired + rest == timers
        invariant |expired| + LowerBound(rest, now) == LowerBound(timers, now)
        decreases |rest|
      {
        assert expired + [rest[0]] + rest[1..] == expired + rest;
        expired, rest := expired + [rest[0]], rest[1..];
      }
      timers := rest;
    }

    method RunCallback(requests: seq<Request>)
      modifies this
      ensures View() == AddAll(old(View()), requests)
    {
      var left := requests;
      while left != []
        invariant AddAll(View(), left) == AddAll(old(View()), requests)
        decreases |left|
      {
        AddTimerInLoop(left[0]);
        left := left[1..];
      }
    }

    method FireExpired(expired: seq<Entry>, now: int, scripts: seq<seq<Request>>)
      modifies this
      ensures View() == FireAll(old(View()), expired, now, scripts)
    {
      var todo, left := expired, scripts;
      while todo != []
        invariant FireAll(View(), todo, now, left) == FireAll(old(View()), expired, now, scripts)
        decreases |todo|
      {
        fired := fired + [Firing(todo[0].timer.id, now)];
        if left != [] {
          RunCallback(left[0]);
          left := left[1..];
        }
        todo := todo[1..];
      }
    }

    method Reset(expired: seq<Entry>, now: int, clock: int)
      modifies this`timers, this`nextStamp, this`alarm
      ensures View() == SetAlarm(Rearm(old(View()), expired, now), clock)
    {
      var left := expired;
      while left != []
        invariant Rearm(View(), left, now) == Rearm(old(View()), expired, now)
        decreases |left|
      {
        if left[0].timer.repeat {
          var when := now + left[0].timer.period;
          timers := Insert(timers, Entry(when, nextStamp, left[0].timer.(expiration := when)));
          nextStamp := nextStamp + 1;
        }
        left := left[1..];
      }
      var nextExpire := 0;
      if timers != [] {
        nextExpire := timers[0].timer.expiration;
      }
      alarm := ResetTimerfd(nextExpire, clock);
    }

    method HandleReadNow(now: int, scripts: seq<seq<Request>>, clock: int)
      modifies this
      ensures View() == HandleRead(old(View()), now, scripts, clock)
    {
      alarm := Off;
      var expired := GetExpired(now);
      FireExpired(expired, now, scripts);
      Reset(expired, now, clock);
    }
  }
}
