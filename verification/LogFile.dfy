/** The rolling log file (log/log_file.cc) on top of the append-only file (log/file.cc). */
module LogFiles {
  import opened Bytes

  const ROLLING_SIZE: nat := 100 * 1024 * 1024
  const FLUSH_INTERVAL: nat := 5
  const CHECK_INTERVAL: nat := 1024
  const DAY: nat := 60 * 60 * 24

  // ---- The partial-write loop ---------------------------------------------------------------

  /** What one fwrite takes of `left` bytes; when the answers run out it takes them all. */
  function Next(left: nat, answers: seq<nat>): (n: nat)
    ensures n <= left
  {
    if answers == [] then left else Min(answers[0], left)
  }

  function Rest(answers: seq<nat>): seq<nat> {
    if answers == [] then [] else answers[1..]
  }

  /** How many of `left` bytes the retry loop gets out before it gives up. */
  function Retried(left: nat, answers: seq<nat>): (n: nat)
    ensures n <= left
    decreases left
  {
    if left == 0 || Next(left, answers) == 0 then 0
    else Next(left, answers) + Retried(left - Next(left, answers), Rest(answers))
  }

  /** The first fwrite may take nothing without ending the attempt. */
  function Taken(len: nat, answers: seq<nat>): (n: nat)
    ensures n <= len
  {
    if len == 0 then 0
    else Next(len, answers) + Retried(len - Next(len, answers), Rest(answers))
  }

  function Sum(ns: seq<nat>): nat {
    if ns == [] then 0 else ns[0] + Sum(ns[1..])
  }

  /** The k-th answer is a zero that comes while bytes are left. */
  predicate StopsAt(left: nat, answers: seq<nat>, k: nat) {
    k < |answers| && answers[k] == 0 && Sum(answers[..k]) < left
  }

  lemma StopsLater(left: nat, answers: seq<nat>, k: nat)
    requires answers != []
    ensures StopsAt(left, answers, k + 1) <==> answers[0] < left && StopsAt(left - answers[0], answers[1..], k)
  {
    if k + 1 < |answers| {
      assert answers[..k + 1][1..] == answers[1..][..k];
    }
  }

  lemma {:induction false} RetriedShort(left: nat, answers: seq<nat>)
    ensures Retried(left, answers) < left <==> exists k: nat :: StopsAt(left, answers, k)
    decreases left
  {
    if left == 0 || answers == [] {
    } else if answers[0] == 0 {
      assert StopsAt(left, answers, 0);
    } else if answers[0] < left {
      var less, more := left - answers[0], answers[1..];
      RetriedShort(less, more);
      if k: nat :| StopsAt(less, more, k) {
        StopsLater(left, answers, k);
        assert StopsAt(left, answers, k + 1);
      }
      if k: nat :| StopsAt(left, answers, k) {
        StopsLater(left, answers, k - 1);
      }
    } else if k: nat :| StopsAt(left, answers, k) {
      StopsLater(left, answers, k - 1);
    }
  }

  /** A slice is cut short exactly when some fwrite after the first answers zero before the
      answers add up to the whole slice. */
  lemma CutShortWhen(len: nat, answers: seq<nat>)
    ensures Taken(len, answers) < len <==> exists k: nat :: 1 <= k && StopsAt(len, answers, k)
  {
    if 0 < len && answers != [] {
      if answers[0] < len {
        var less, more := len - answers[0], answers[1..];
        RetriedShort(less, more);
        if k: nat :| StopsAt(less, more, k) {
          StopsLater(len, answers, k);
          assert StopsAt(len, answers, k + 1);
        }
      }
      if k: nat :| 1 <= k && StopsAt(len, answers, k) {
        StopsLater(len, answers, k - 1);
      }
    }
  }

  lemma {:induction false} RetriedUntil(left: nat, answers: seq<nat>, k: nat)
    requires StopsAt(left, answers, k) && forall j: nat :: j < k ==> !StopsAt(left, answers, j)
    ensures Retried(left, answers) == Sum(answers[..k])
    decreases k
  {
    if k > 0 {
      assert !StopsAt(left, answers, 0);
      var less, more := left - answers[0], answers[1..];
      StopsLater(left, answers, k - 1);
      forall j: nat | j < k - 1 ensures !StopsAt(less, more, j) {
        StopsLater(left, answers, j);
        assert !StopsAt(left, answers, j + 1);
      }
      RetriedUntil(less, more, k - 1);
      assert answers[..k][1..] == answers[1..][..k - 1];
    }
  }

  /** What gets out of such a slice is what the answers before that zero add up to. */
  lemma CutShortAt(len: nat, answers: seq<nat>, k: nat)
    requires 1 <= k && StopsAt(len, answers, k) && forall j: nat :: 1 <= j < k ==> !StopsAt(len, answers, j)
    ensures Taken(len, answers) == Sum(answers[..k])
  {
    StopsLater(len, answers, k - 1);
    var less, more := len - answers[0], answers[1..];
    forall j: nat | j < k - 1 ensures !StopsAt(less, more, j) {
      StopsLater(len, answers, j);
      assert !StopsAt(len, answers, j + 1);
    }
    RetriedUntil(less, more, k - 1);
    assert answers[..k][1..] == answers[1..][..k - 1];
  }

  // ---- Rolling ------------------------------------------------------------------------------

  /** One call of `Append` with what fwrite answers and what the clock reads when the slice
      arrives, at the periodic check, and when a new file is opened. */
  datatype Call = Call(slice: string, answers: seq<nat>, arrival: nat, check: nat, roll: nat)

  /** A file: the calls it served, the bytes it holds, its byte counter, when it was opened and
      when it was flushed. */
  datatype File = File(calls: seq<Call>, bytes: string, hasWritten: nat, openedAt: nat, flushes: seq<nat>)

  datatype Log = Log(
    closed: seq<File>, file: File,
    count: nat, lastRoll: nat, lastFlush: nat, startPeriod: nat)

  /** The start of the day. */
  function Period(now: nat): (start: nat)
    ensures start <= now < start + 86400 && start % 86400 == 0
  {
    now / DAY * DAY
  }

  function EmptyFile(now: nat): File { File([], "", 0, now, []) }

  function Opened(now: nat): Log { Log([], EmptyFile(now), 0, now, now, Period(now)) }

  /** What the partial-write loop gets out of a call's slice. */
  function Part(call: Call): string { call.slice[..Taken(|call.slice|, call.answers)] }

  predicate Complete(call: Call) { Taken(|call.slice|, call.answers) == |call.slice| }

  function Stored(f: File, call: Call): File {
    f.(calls := f.calls + [call], bytes := f.bytes + Part(call), hasWritten := f.hasWritten + |call.slice|)
  }

  function RollToNewFile(l: Log, now: nat): Log {
    Log(l.closed + [l.file], EmptyFile(now), l.count, now, now, Period(now))
  }

  function Append(l: Log, call: Call): Log {
    var l := l.(file := Stored(l.file, call));
    if l.file.hasWritten > ROLLING_SIZE then RollToNewFile(l, call.roll)
    else if l.count + 1 < CHECK_INTERVAL then l.(count := l.count + 1)
    else
      var l := l.(count := 0);
      if Period(call.check) != l.startPeriod then RollToNewFile(l, call.roll)
      else if call.check - l.lastFlush > FLUSH_INTERVAL then
        l.(lastFlush := call.check, file := l.file.(flushes := l.file.flushes + [call.check]))
      else l
  }

  function Run(l: Log, calls: seq<Call>): Log {
    if calls == [] then l else Append(Run(l, calls[..|calls| - 1]), calls[|calls| - 1])
  }

  function Files(l: Log): seq<File> { l.closed + [l.file] }

  // ---- The stream ---------------------------------------------------------------------------

  function CallsOf(files: seq<File>): seq<Call> {
    if files == [] then [] else CallsOf(files[..|files| - 1]) + files[|files| - 1].calls
  }

  function BytesOf(files: seq<File>): string {
    if files == [] then "" else BytesOf(files[..|files| - 1]) + files[|files| - 1].bytes
  }

  function Offered(calls: seq<Call>): seq<string> {
    if calls == [] then [] else Offered(calls[..|calls| - 1]) + [calls[|calls| - 1].slice]
  }

  function Parts(calls: seq<Call>): seq<string> {
    if calls == [] then [] else Parts(calls[..|calls| - 1]) + [Part(calls[|calls| - 1])]
  }

  lemma PartsSnoc(calls: seq<Call>, call: Call)
    ensures Flat(Parts(calls + [call])) == Flat(Parts(calls)) + Part(call)
    ensures Flat(Offered(calls + [call])) == Flat(Offered(calls)) + call.slice
  {
    assert (calls + [call])[..|calls|] == calls;
    FlatSnoc(Parts(calls), Part(call));
    FlatSnoc(Offered(calls), call.slice);
  }

  lemma {:induction false} PartsOfBoth(a: seq<Call>, b: seq<Call>)
    ensures Parts(a + b) == Parts(a) + Parts(b)
    decreases |b|
  {
    hide Part;
    if b == [] {
      assert a + b == a;
    } else {
      assert (a + b)[..|a + b| - 1] == a + b[..|b| - 1];
      PartsOfBoth(a, b[..|b| - 1]);
    }
  }

  lemma PartsAppend(a: seq<Call>, b: seq<Call>)
    ensures Flat(Parts(a + b)) == Flat(Parts(a)) + Flat(Parts(b))
  {
    PartsOfBoth(a, b);
    hide Parts;
    FlatAppend(Parts(a), Parts(b));
  }

  lemma {:induction false} CompleteParts(calls: seq<Call>)
    requires forall i :: 0 <= i < |calls| ==> Complete(calls[i])
    ensures Parts(calls) == Offered(calls)
  {
    if calls != [] {
      var before, last := calls[..|calls| - 1], calls[|calls| - 1];
      assert forall i :: 0 <= i < |before| ==> before[i] == calls[i];
      CompleteParts(before);
      assert Complete(calls[|calls| - 1]) && last.slice[..|last.slice|] == last.slice;
    }
  }

  lemma FilesSnoc(files: seq<File>, file: File)
    ensures CallsOf(files + [file]) == CallsOf(files) + file.calls
    ensures BytesOf(files + [file]) == BytesOf(files) + file.bytes
  {
    assert (files + [file])[..|files|] == files;
  }

  /** The file after an append, flushed or not. */
  predicate SameData(f: File, g: File) { g == f.(flushes := g.flushes) }

  /** An append goes to the one file that was current and to no other. */
  lemma AppendStores(l: Log, call: Call)
    ensures var f, d := Stored(l.file, call), Files(Append(l, call));
            && |l.closed| < |d| && d[..|l.closed|] == l.closed && SameData(f, d[|l.closed|])
            && (|d| == |l.closed| + 1 || d == l.closed + [f] + [EmptyFile(call.roll)])
    ensures CallsOf(Files(Append(l, call))) == CallsOf(Files(l)) + [call]
  {
    var f, d := Stored(l.file, call), Files(Append(l, call));
    FilesSnoc(l.closed, l.file);
    FilesSnoc(l.closed, d[|l.closed|]);
    FilesSnoc(l.closed + [f], EmptyFile(call.roll));
    assert CallsOf(l.closed) + l.file.calls + [call] == CallsOf(l.closed) + (l.file.calls + [call]);
  }

  lemma AppendAt(l: Log, call: Call, i: nat)
    requires i < |Files(Append(l, call))|
    ensures var f := Files(Append(l, call))[i];
            if i < |l.closed| then i < |Files(l)| && f == Files(l)[i]
            else if i == |l.closed| then SameData(Stored(l.file, call), f)
            else f == EmptyFile(call.roll)
    ensures |l.closed| < |Files(l)| && Files(l)[|l.closed|] == l.file
  {
    AppendStores(l, call);
    var d := Files(Append(l, call));
    hide Append;
    if i < |l.closed| { assert d[i] == d[..|l.closed|][i]; }
  }

  /** A file holds the parts written of the slices it was offered, one after the other. */
  ghost predicate Faithful(f: File) { f.bytes == Flat(Parts(f.calls)) }

  ghost predicate AllFaithful(files: seq<File>) {
    forall i :: 0 <= i < |files| ==> Faithful(files[i])
  }

  lemma EmptyIsFaithful(now: nat)
    ensures Faithful(EmptyFile(now))
  {
    assert Parts([]) == [] && Flat<char>([]) == [];
  }

  lemma StoredIsFaithful(f: File, call: Call, g: File)
    requires Faithful(f) && SameData(Stored(f, call), g)
    ensures Faithful(g)
  {
    PartsSnoc(f.calls, call);
    hide Part;
    hide Flat;
    hide Parts;
  }

  lemma AppendKeepsFaithful(l: Log, call: Call)
    requires AllFaithful(Files(l))
    ensures AllFaithful(Files(Append(l, call)))
  {
    var d := Files(Append(l, call));
    hide Append;
    hide Faithful;
    hide Files;
    hide Stored;
    EmptyIsFaithful(call.roll);
    forall i | 0 <= i < |d|
      ensures Faithful(d[i])
    {
      AppendAt(l, call, i);
      if i < |l.closed| { assert Faithful(Files(l)[i]); }
      if i == |l.closed| {
        assert Faithful(Files(l)[i]);
        StoredIsFaithful(l.file, call, d[i]);
      }
    }
  }

  lemma {:induction false} FaithfulBytes(files: seq<File>)
    requires AllFaithful(files)
    ensures BytesOf(files) == Flat(Parts(CallsOf(files)))
  {
    if files != [] {
      var before, last := files[..|files| - 1], files[|files| - 1];
      assert Faithful(files[|files| - 1]);
      assert forall i :: 0 <= i < |before| ==> Faithful(files[i]) && before[i] == files[i];
      FaithfulBytes(before);
      PartsAppend(CallsOf(before), last.calls);
    }
  }

  lemma {:induction false} CallsAreKept(l: Log, calls: seq<Call>)
    requires AllFaithful(Files(l))
    ensures AllFaithful(Files(Run(l, calls)))
    ensures CallsOf(Files(Run(l, calls))) == CallsOf(Files(l)) + calls
  {
    hide AllFaithful;
    hide Append;
    hide CallsOf;
    hide Files;
    if calls != [] {
      var before, last := calls[..|calls| - 1], calls[|calls| - 1];
      CallsAreKept(l, before);
      AppendStores(Run(l, before), last);
      AppendKeepsFaithful(Run(l, before), last);
      assert CallsOf(Files(l)) + before + [last] == CallsOf(Files(l)) + calls;
    }
  }

  /** Over every run: the files in order serve the calls in order, each call in one file; the
      bytes of each file are exactly the parts written of its own slices, whole slices when no
      write was given up; and the files together hold the parts of all slices in order. */
  lemma StreamIsKept(l: Log, calls: seq<Call>)
    requires AllFaithful(Files(l))
    ensures AllFaithful(Files(Run(l, calls)))
    ensures CallsOf(Files(Run(l, calls))) == CallsOf(Files(l)) + calls
    ensures BytesOf(Files(Run(l, calls))) == BytesOf(Files(l)) + Flat(Parts(calls))
  {
    hide Run;
    hide AllFaithful;
    hide Parts;
    hide Flat;
    hide BytesOf;
    hide CallsOf;
    CallsAreKept(l, calls);
    FaithfulBytes(Files(Run(l, calls)));
    FaithfulBytes(Files(l));
    PartsAppend(CallsOf(Files(l)), calls);
  }

  /** When no write is given up, each file holds its slices whole. */
  lemma FilesHoldWholeSlices(now: nat, calls: seq<Call>, i: nat)
    requires forall k :: 0 <= k < |calls| ==> Complete(calls[k])
    requires i < |Files(Run(Opened(now), calls))|
    ensures Files(Run(Opened(now), calls))[i].bytes == Flat(Offered(Files(Run(Opened(now), calls))[i].calls))
  {
    hide Run;
    hide CallsOf;
    hide Complete;
    hide Flat;
    var files := Files(Run(Opened(now), calls));
    OpenedIsFaithful(now);
    StreamIsKept(Opened(now), calls);
    assert Faithful(files[i]);
    assert [] + calls == calls;
    CallsAmong(files, i);
    forall k | 0 <= k < |files[i].calls|
      ensures Complete(files[i].calls[k])
    {
      assert files[i].calls[k] in calls;
    }
    CompleteParts(files[i].calls);
  }

  lemma OpenedIsFaithful(now: nat)
    ensures AllFaithful(Files(Opened(now)))
    ensures CallsOf(Files(Opened(now))) == [] && BytesOf(Files(Opened(now))) == ""
  {
    assert Files(Opened(now)) == [] + [EmptyFile(now)];
    FilesSnoc([], EmptyFile(now));
    assert Parts([]) == [] && Flat<char>([]) == [];
  }

  lemma {:induction false} CallsAmong(files: seq<File>, i: nat)
    requires i < |files|
    ensures forall c :: c in files[i].calls ==> c in CallsOf(files)
    decreases |files|
  {
    if i < |files| - 1 { CallsAmong(files[..|files| - 1], i); }
  }

  // ---- Size ---------------------------------------------------------------------------------

  /** The counter is the length of the slices; without the last slice it is at most the limit. */
  ghost predicate Sized(f: File) {
    && f.hasWritten == |Flat(Offered(f.calls))|
    && |f.bytes| <= f.hasWritten
    && (f.calls != [] ==> f.hasWritten - |f.calls[|f.calls| - 1].slice| <= ROLLING_SIZE)
  }

  ghost predicate SizeInv(l: Log) {
    && l.file.hasWritten <= ROLLING_SIZE
    && forall i :: 0 <= i < |Files(l)| ==> Sized(Files(l)[i])
  }

  lemma EmptyIsSized(now: nat)
    ensures Sized(EmptyFile(now))
  {
    assert Offered([]) == [] && Flat<char>([]) == [];
  }

  lemma StoredIsSized(f: File, call: Call, g: File)
    requires Sized(f) && f.hasWritten <= ROLLING_SIZE && SameData(Stored(f, call), g)
    ensures Sized(g)
  {
    PartsSnoc(f.calls, call);
    hide Flat;
    hide Offered;
  }

  lemma AppendStaysBelow(l: Log, call: Call)
    requires l.file.hasWritten <= ROLLING_SIZE
    ensures Append(l, call).file.hasWritten <= ROLLING_SIZE
  {
  }

  lemma AppendKeepsSize(l: Log, call: Call)
    requires SizeInv(l)
    ensures SizeInv(Append(l, call))
  {
    var d := Files(Append(l, call));
    hide Append;
    hide Sized;
    hide Stored;
    hide Files;
    AppendStaysBelow(l, call);
    EmptyIsSized(call.roll);
    forall i | 0 <= i < |d|
      ensures Sized(d[i])
    {
      AppendAt(l, call, i);
      if i < |l.closed| { assert Sized(Files(l)[i]); }
      if i == |l.closed| {
        assert Sized(Files(l)[i]);
        StoredIsSized(l.file, call, d[i]);
      }
    }
  }

  /** Over every run each file holds at most the rolling size plus one slice. */
  lemma {:induction false} FilesStaySmall(l: Log, calls: seq<Call>)
    requires SizeInv(l)
    ensures SizeInv(Run(l, calls))
  {
    if calls != [] {
      FilesStaySmall(l, calls[..|calls| - 1]);
      AppendKeepsSize(Run(l, calls[..|calls| - 1]), calls[|calls| - 1]);
    }
  }

  /** No file is closed early: while the clock stays within the day the log is in, a closed file
      is one that outgrew the rolling size. */
  lemma {:induction false} RollsOnlyWhenFull(l: Log, calls: seq<Call>)
    requires forall i :: 0 <= i < |calls| ==>
               Period(calls[i].check) == l.startPeriod == Period(calls[i].roll)
    ensures Run(l, calls).startPeriod == l.startPeriod
    ensures |l.closed| <= |Run(l, calls).closed|
    ensures forall i :: |l.closed| <= i < |Run(l, calls).closed| ==>
              ROLLING_SIZE < Run(l, calls).closed[i].hasWritten
  {
    if calls != [] {
      var before := calls[..|calls| - 1];
      assert forall i :: 0 <= i < |before| ==> before[i] == calls[i];
      RollsOnlyWhenFull(l, before);
    }
  }

  // ---- Without the cached fields ------------------------------------------------------------

  /** The log as its files alone and the number of appends so far that did not fill their file. */
  datatype Plain = Plain(files: seq<File>, ticks: nat)

  function Day(now: nat): nat { now / 86400 }

  function LastFlush(f: File): nat {
    if f.flushes == [] then f.openedAt else f.flushes[|f.flushes| - 1]
  }

  /** The bytes offered to a file. */
  function Volume(calls: seq<Call>): nat { |Flat(Offered(calls))| }

  /** When a file has been offered more than 100 MiB it is followed by another. Otherwise, at
      every 1024th such append, it is followed by another if the day is not the one it was opened
      on, and else it is flushed if that was last done more than five seconds ago. */
  function PlainAppend(p: Plain, call: Call): (r: Plain)
    requires p.files != []
    ensures r.files != []
  {
    var f := Stored(p.files[|p.files| - 1], call);
    var files := p.files[..|p.files| - 1];
    if Volume(f.calls) > 104857600 then Plain(files + [f] + [EmptyFile(call.roll)], p.ticks)
    else if (p.ticks + 1) % 1024 != 0 then Plain(files + [f], p.ticks + 1)
    else if Day(call.check) != Day(f.openedAt) then Plain(files + [f] + [EmptyFile(call.roll)], p.ticks + 1)
    else if call.check - LastFlush(f) > 5 then
      Plain(files + [f.(flushes := f.flushes + [call.check])], p.ticks + 1)
    else Plain(files + [f], p.ticks + 1)
  }

  function PlainRun(now: nat, calls: seq<Call>): (r: Plain)
    ensures r.files != []
  {
    if calls == [] then Plain([EmptyFile(now)], 0)
    else PlainAppend(PlainRun(now, calls[..|calls| - 1]), calls[|calls| - 1])
  }

  /** The fields the log keeps are what the files say. */
  ghost predicate Caches(l: Log, p: Plain) {
    && Files(l) == p.files
    && l.count == p.ticks % 1024
    && l.startPeriod == Period(l.file.openedAt)
    && l.lastRoll == l.file.openedAt
    && l.lastFlush == LastFlush(l.file)
    && l.file.hasWritten == Volume(l.file.calls)
  }

  lemma SameDay(a: nat, b: nat)
    ensures Period(a) == Period(b) <==> Day(a) == Day(b)
  {
  }

  lemma NextTick(ticks: nat)
    ensures (ticks + 1) % 1024 == if ticks % 1024 == 1023 then 0 else ticks % 1024 + 1
  {
  }

  lemma VolumeSnoc(calls: seq<Call>, call: Call)
    ensures Volume([]) == 0 && Volume(calls + [call]) == Volume(calls) + |call.slice|
  {
    PartsSnoc(calls, call);
    assert Offered([]) == [] && Flat<char>([]) == [];
  }

  lemma AppendIsPlain(l: Log, p: Plain, call: Call)
    requires Caches(l, p)
    ensures p.files != [] && Caches(Append(l, call), PlainAppend(p, call))
  {
    assert p.files[..|p.files| - 1] == l.closed && p.files[|p.files| - 1] == l.file;
    VolumeSnoc(l.file.calls, call);
    SameDay(call.check, l.file.openedAt);
    NextTick(p.ticks);
    hide Period;
    hide Day;
    hide Part;
    hide Volume;
  }

  /** Over every run from the opening: the files are those of the plain log, which keeps nothing
      but the files, and each cached field is what the files say. */
  lemma {:induction false} FilesArePlain(now: nat, calls: seq<Call>)
    ensures Caches(Run(Opened(now), calls), PlainRun(now, calls))
  {
    if calls == [] {
      VolumeSnoc([], Call("", [], 0, 0, 0));
    } else {
      FilesArePlain(now, calls[..|calls| - 1]);
      AppendIsPlain(Run(Opened(now), calls[..|calls| - 1]), PlainRun(now, calls[..|calls| - 1]), calls[|calls| - 1]);
    }
  }

  /** A file was closed because it was full, or by a check on another day than it was opened on;
      the next one was opened then. */
  predicate ClosedRightly(f: File, next: File) {
    && f.calls != []
    && (104857600 < Volume(f.calls) || Day(f.calls[|f.calls| - 1].check) != Day(f.openedAt))
    && next.openedAt == f.calls[|f.calls| - 1].roll
  }

  lemma PlainClosesRightly(p: Plain, call: Call)
    requires p.files != []
    ensures var files, d := p.files, PlainAppend(p, call).files;
            var n := |files|;
            && n <= |d| <= n + 1 && d[n - 1].openedAt == files[n - 1].openedAt
            && (forall i :: 0 <= i < n - 1 ==> d[i] == files[i])
            && (|d| == n + 1 ==> ClosedRightly(d[n - 1], d[n]))
  {
    hide Volume;
    hide Day;
    hide Part;
  }

  ghost predicate AllClosedRightly(files: seq<File>) {
    forall i :: 0 <= i < |files| - 1 ==> ClosedRightly(files[i], files[i + 1])
  }

  lemma ClosedRightlyMore(files: seq<File>, d: seq<File>)
    requires files != [] && AllClosedRightly(files) && |files| <= |d| <= |files| + 1
    requires d[|files| - 1].openedAt == files[|files| - 1].openedAt
    requires forall i :: 0 <= i < |files| - 1 ==> d[i] == files[i]
    requires |d| == |files| + 1 ==> ClosedRightly(d[|files| - 1], d[|files|])
    ensures AllClosedRightly(d)
  {
    hide Volume;
    hide Day;
    forall i | 0 <= i < |d| - 1
      ensures ClosedRightly(d[i], d[i + 1])
    {
      if i < |files| - 1 { assert ClosedRightly(files[i], files[i + 1]); }
    }
  }

  lemma {:induction false} PlainFilesClosedRightly(now: nat, calls: seq<Call>)
    ensures PlainRun(now, calls).files[0].openedAt == now
    ensures AllClosedRightly(PlainRun(now, calls).files)
  {
    if calls != [] {
      var before, last := calls[..|calls| - 1], calls[|calls| - 1];
      PlainFilesClosedRightly(now, before);
      PlainClosesRightly(PlainRun(now, before), last);
      hide PlainAppend;
      hide ClosedRightly;
      ClosedRightlyMore(PlainRun(now, before).files, PlainRun(now, calls).files);
    }
  }

  /** Over every run from the opening: each file was closed because it had outgrown the rolling
      size or at a check on another day than it was opened on, and the next one opened then. */
  lemma FilesAreClosedRightly(now: nat, calls: seq<Call>)
    ensures Files(Run(Opened(now), calls))[0].openedAt == now
    ensures AllClosedRightly(Files(Run(Opened(now), calls)))
  {
    FilesArePlain(now, calls);
    PlainFilesClosedRightly(now, calls);
    hide Run;
    hide PlainRun;
    hide ClosedRightly;
  }

  // ---- Days ---------------------------------------------------------------------------------

  function Last(now: nat, calls: seq<Call>): nat {
    if calls == [] then now else calls[|calls| - 1].roll
  }

  /** A clock that never goes back, from `now` on. */
  predicate Clocked(now: nat, calls: seq<Call>) {
    calls != [] ==>
      var before, last := calls[..|calls| - 1], calls[|calls| - 1];
      Clocked(now, before) && Last(now, before) <= last.arrival <= last.check <= last.roll
  }

  /** How many slices of a file arrived on another day than the one it was opened on. */
  function LateAmong(calls: seq<Call>, openedAt: nat): nat {
    if calls == [] then 0
    else
      LateAmong(calls[..|calls| - 1], openedAt)
      + if Day(calls[|calls| - 1].arrival) != Day(openedAt) then 1 else 0
  }

  function Late(f: File): nat { LateAmong(f.calls, f.openedAt) }

  ghost predicate DayInv(l: Log, now: nat) {
    && l.count < CHECK_INTERVAL
    && l.startPeriod == Period(l.file.openedAt)
    && Late(l.file) <= l.count
    && Day(l.file.openedAt) <= Day(now)
    && (Late(l.file) > 0 ==> Day(l.file.openedAt) < Day(now))
    && forall i :: 0 <= i < |l.closed| ==> Late(l.closed[i]) <= CHECK_INTERVAL
  }

  lemma DayMonotone(a: nat, b: nat)
    requires a <= b
    ensures Day(a) <= Day(b)
  {
  }

  lemma AppendKeepsDays(l: Log, now: nat, call: Call)
    requires DayInv(l, now) && now <= call.arrival <= call.check <= call.roll
    ensures DayInv(Append(l, call), call.roll)
  {
    DayMonotone(now, call.arrival);
    DayMonotone(call.arrival, call.check);
    DayMonotone(call.check, call.roll);
    SameDay(call.check, l.file.openedAt);
    var f := Stored(l.file, call);
    assert f.calls[..|f.calls| - 1] == l.file.calls;
    assert Late(f) == Late(l.file) + if Day(call.arrival) != Day(l.file.openedAt) then 1 else 0;
    assert Late(EmptyFile(call.roll)) == 0;
    hide Day;
    hide Period;
    hide Part;
  }

  /** With a clock that never goes back, at most 1024 slices land in a file after the day it was
      opened on is over. */
  lemma {:induction false} DayChangeIsNoticed(l: Log, now: nat, calls: seq<Call>)
    requires DayInv(l, now) && Clocked(now, calls)
    ensures DayInv(Run(l, calls), Last(now, calls))
    ensures forall i :: 0 <= i < |Files(Run(l, calls))| ==> Late(Files(Run(l, calls))[i]) <= 1024
  {
    if calls != [] {
      var before := calls[..|calls| - 1];
      var last := calls[|calls| - 1];
      DayChangeIsNoticed(l, now, before);
      AppendKeepsDays(Run(l, before), Last(now, before), last);
      hide Late;
      hide Append;
    }
  }

  /** Everything at once, from the moment the log is opened. */
  lemma OpenedLogIsSound(now: nat, calls: seq<Call>)
    ensures SizeInv(Run(Opened(now), calls)) && AllFaithful(Files(Run(Opened(now), calls)))
    ensures CallsOf(Files(Run(Opened(now), calls))) == calls
    ensures BytesOf(Files(Run(Opened(now), calls))) == Flat(Parts(calls))
    ensures Clocked(now, calls) ==> DayInv(Run(Opened(now), calls), Last(now, calls))
  {
    OpenedIsFaithful(now);
    OpenedIsSmall(now);
    hide Append;
    hide SizeInv;
    hide AllFaithful;
    FilesStaySmall(Opened(now), calls);
    StreamIsKept(Opened(now), calls);
    if Clocked(now, calls) { DayChangeIsNoticed(Opened(now), now, calls); }
  }

  lemma OpenedIsSmall(now: nat)
    ensures SizeInv(Opened(now))
  {
    assert Offered([]) == [] && Flat<char>([]) == [];
  }

  // ---- The objects --------------------------------------------------------------------------

  lemma Glue(before: string, s: string, at: nat, n: nat)
    requires at + n <= |s|
    ensures before + s[..at] + s[at..at + n] == before + s[..at + n]
  {
    assert s[..at] + s[at..at + n] == s[..at + n];
  }

  class AppendFile {
    var bytes: string
    var hasWritten: nat

    constructor ()
      ensures bytes == "" && hasWritten == 0
    {
      bytes, hasWritten := "", 0;
    }

    /** Writes the slice piece by piece; the counter advances by its whole length even when the
        loop gives up. */
    method Append(s: string, answers: seq<nat>)
      modifies this
      ensures bytes == old(bytes) + s[..Taken(|s|, answers)]
      ensures hasWritten == old(hasWritten) + |s|
    {
      if |s| == 0 {
        return;
      }
      var written := Next(|s|, answers);
      var left := Rest(answers);
      bytes := bytes + s[..written];
      while written < |s|
        invariant written <= |s| && hasWritten == old(hasWritten)
        invariant bytes == old(bytes) + s[..written]
        invariant written + Retried(|s| - written, left) == Taken(|s|, answers)
        decreases |s| - written
      {
        var n := Next(|s| - written, left);
        if n == 0 {
          break;
        }
        Glue(old(bytes), s, written, n);
        bytes := bytes + s[written..written + n];
        written := written + n;
        left := Rest(left);
      }
      hasWritten := hasWritten + |s|;
    }
  }

  class LogFile {
    var file: AppendFile
    var count: nat
    var lastRoll: nat
    var lastFlush: nat
    var startPeriod: nat
    ghost var closed: seq<File>
    ghost var calls: seq<Call>
    ghost var openedAt: nat
    ghost var flushes: seq<nat>

    ghost function View(): Log
      reads this, file
    {
      Log(closed, File(calls, file.bytes, file.hasWritten, openedAt, flushes), count, lastRoll, lastFlush, startPeriod)
    }

    constructor (now: nat)
      ensures fresh(file) && View() == Opened(now)
    {
      file := new AppendFile();
      count, lastRoll, lastFlush, startPeriod := 0, now, now, now / DAY * DAY;
      closed, calls, openedAt, flushes := [], [], now, [];
    }

    method RollToNew(now: nat)
      modifies this
      ensures fresh(file) && View() == RollToNewFile(old(View()), now)
    {
      closed := closed + [View().file];
      calls, openedAt, flushes := [], now, [];
      lastRoll, lastFlush, startPeriod := now, now, now / DAY * DAY;
      file := new AppendFile();
    }

    method AppendSlice(call: Call)
      modifies this, file
      ensures (file == old(file) || fresh(file)) && View() == Append(old(View()), call)
    {
      calls := calls + [call];
      file.Append(call.slice, call.answers);
      if file.hasWritten > ROLLING_SIZE {
        RollToNew(call.roll);
      } else {
        count := count + 1;
        if count >= CHECK_INTERVAL {
          count := 0;
          var thisPeriod := call.check / DAY * DAY;
          if thisPeriod != startPeriod {
            RollToNew(call.roll);
          } else if call.check - lastFlush > FLUSH_INTERVAL {
            lastFlush := call.check;
            flushes := flushes + [call.check];
          }
        }
      }
    }
  }
}
