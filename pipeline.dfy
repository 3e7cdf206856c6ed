/** The bookkeeping both program versions share: the producer that reads the manifest,
    the pool of `maxRoutineSize` upload slots, the workers' deferred accounting, and the
    monitor loop that logs errors, reports progress and decides when to exit.

    The goroutines become atomic steps on one Pipeline object whose fields are the
    shared counters, the producer's position, the pool and the messages channel. Each
    step is specified by a function on the State value those fields make up, and the
    bookkeeping invariant is proved about those functions, over a History of what has
    happened (lines read, workers started, workers finished).

    The monitor loads the counters at the top of each loop iteration and then waits for
    a message or a tick; its tick reports and decides on the loaded values, which the
    other goroutines may have changed by then. */
module Pipeline {
  import opened Wrappers
  import opened Errors
  import opened Decimal
  import opened Meta
  import opened Tasks
  import Upload
  import ScotUpload
  import MetaReader
  import GoStrings

  /** 2.0.0 (main.go) or 1.0.1 (scotabc.go). */
  datatype Version = V2 | V1

  /** The producer goroutine: reading lines, blocked on `activePool <- true` with the
      next task in hand, or returned after end of file or a read error. */
  datatype ProducerState = Reading | Blocked | Finished

  // ---------------------------------------------------------------------------
  // The progress report's unit

  datatype Unit = B | KB | MB | GB

  function UnitBytes(u: Unit): nat {
    match u
    case B => 1
    case KB => 1024
    case MB => 1048576
    case GB => 1073741824
  }

  /** The unit the amount transferred is shown in: the largest unit strictly smaller
      than the amount, and bytes when there is none. */
  function TransferUnit(n: nat): (u: Unit)
    ensures u == B || UnitBytes(u) < n
    ensures forall v: Unit :: v != B && UnitBytes(v) < n ==> UnitBytes(v) <= UnitBytes(u)
  {
    if n > 1073741824 then GB
    else if n > 1048576 then MB
    else if n > 1024 then KB
    else B
  }

  /** A larger amount is never shown in a smaller unit. */
  lemma TransferUnitMonotone(m: nat, n: nat)
    requires m <= n
    ensures UnitBytes(TransferUnit(m)) <= UnitBytes(TransferUnit(n))
  {
  }

  /** The comparisons are strict: exactly 1024 bytes are still shown in B. */
  lemma TransferUnitBoundaries()
    ensures TransferUnit(1024) == B && TransferUnit(1025) == KB
    ensures TransferUnit(1048576) == KB && TransferUnit(1048577) == MB
    ensures TransferUnit(1073741824) == MB && TransferUnit(1073741825) == GB
  {
  }

  /** What a tick reports: lines processed of lines read, bytes transferred, its unit. */
  datatype Progress = Progress(processed: nat, total: nat, transferred: nat, unit: Unit)

  /** The monitor's copies of the shared counters: curRSize, curTotalSize, curSize and
      curTotalTransferred. */
  datatype Counters = Counters(routines: nat, total: nat, count: nat, transferred: Uint64)

  /** The error-log line written for a message with an error: the time, the source
      line and the error text, separated by " ### ", ending the line. */
  function LogLine(now: string, m: Message): (l: string)
    requires m.error.Some?
    ensures |l| == |now| + |m.sourceLine| + |m.error.value.Text()| + 11
    ensures l[..|now| + 5] == now + " ### " && l[|now| + 5..|now| + 5 + |m.sourceLine|] == m.sourceLine
    ensures l[|now| + 5 + |m.sourceLine|..|now| + 10 + |m.sourceLine|] == " ### "
    ensures l[|l| - 1 - |m.error.value.Text()|..] == m.error.value.Text() + "\n"
  {
    var lead := now + " ### ";
    var middle := m.sourceLine + " ### ";
    var tail := m.error.value.Text() + "\n";
    assert (lead + middle + tail)[..|lead|] == lead;
    assert (lead + middle + tail)[|lead|..|lead| + |m.sourceLine|] == middle[..|m.sourceLine|] == m.sourceLine;
    assert (lead + middle + tail)[|lead| + |m.sourceLine|..|lead| + |middle|] == middle[|m.sourceLine|..] == " ### ";
    assert (lead + middle + tail)[|lead| + |middle|..] == tail;
    lead + middle + tail
  }

  // ---------------------------------------------------------------------------
  // Tasks made from manifest lines

  /** The tasks a run of manifest lines becomes, in order. */
  function TasksOf(lines: seq<string>, prefix: string): (ts: seq<Task>)
    ensures |ts| == |lines|
  {
    if lines == [] then []
    else TasksOf(lines[..|lines| - 1], prefix) + [MakeTask(lines[|lines| - 1], prefix)]
  }

  /** The i-th task is made from the i-th line. */
  lemma {:induction false} TasksOfAt(lines: seq<string>, prefix: string, i: nat)
    requires i < |lines|
    ensures TasksOf(lines, prefix)[i] == MakeTask(lines[i], prefix)
  {
    if i < |lines| - 1 {
      TasksOfAt(lines[..|lines| - 1], prefix, i);
    }
  }

  lemma TasksOfSnoc(lines: seq<string>, line: string, prefix: string)
    ensures TasksOf(lines + [line], prefix) == TasksOf(lines, prefix) + [MakeTask(line, prefix)]
  {
    assert (lines + [line])[..|lines|] == lines;
  }

  // ---------------------------------------------------------------------------
  // The state of a run and its steps

  /** The mutable state of a run as one value: the shared counters, the producer, the
      pool (`slots` is len(activePool), `running` the workers in flight), the messages
      channel and the monitor, whose `loaded` counters are None at the top of its loop
      and the values it loaded while it waits in `select`. */
  datatype State = State(
    currentRoutineSize: nat, fileTotal: nat, fileCount: nat, totalTransferred: Uint64,
    offset: nat, offsetDone: bool, producer: ProducerState, pending: Option<Task>,
    slots: nat, running: seq<Task>,
    messages: seq<Message>, appRunning: bool, errorLog: seq<string>, exitCode: Option<int>,
    loaded: Option<Counters>)

  /** What has happened so far: the manifest lines read, the tasks that got a pool
      slot in order, and the tasks whose worker has finished in order of finishing. */
  datatype History = History(read: seq<string>, spawned: seq<Task>, finished: seq<Task>)

  function PendingSeq(pending: Option<Task>): (ts: seq<Task>)
    ensures |ts| <= 1 && (pending.Some? <==> |ts| == 1)
    ensures pending.Some? ==> ts == [pending.value]
  {
    if pending.Some? then [pending.value] else []
  }

  /** The state at start, before the producer has read anything. */
  function Initial(offset: nat, producer: ProducerState, messages: seq<Message>, exitCode: Option<int>): State {
    State(0, 0, 0, 0, offset, false, producer, None, 0, [], messages, false, [], exitCode, None)
  }

  /** The producer reads one line. It always counts towards fileTotal. While the offset
      lasts the line is counted as processed and dropped; after that (and the offset is
      then latched as done) the in-flight count goes up and the producer waits for a
      pool slot with the line's task. */
  function ReadLineStep(s: State, line: string, prefix: string): State {
    if !s.offsetDone && s.offset > 0 then
      s.(fileTotal := s.fileTotal + 1, fileCount := s.fileCount + 1, offset := s.offset - 1)
    else
      s.(fileTotal := s.fileTotal + 1, offsetDone := true, currentRoutineSize := s.currentRoutineSize + 1,
         pending := Some(MakeTask(line, prefix)), producer := Blocked)
  }

  /** `activePool <- true` succeeds and the waiting task's worker starts. */
  function AcquireStep(s: State): State
    requires s.pending.Some?
  {
    s.(slots := s.slots + 1, running := s.running + [s.pending.value], pending := None, producer := Reading)
  }

  /** The producer's loop ends: at end of file it sends the "read!" notice, on a read
      error it sends the error, with no source line. */
  function FinishStep(s: State, inputFile: string, readError: Option<Error>): State {
    s.(producer := Finished,
       messages := s.messages + [if readError.None? then Message("File \"" + inputFile + "\" read!", "", None)
                                 else Message("", "", readError)])
  }

  /** Worker `i` finished with `report`; its deferred block ran: the messages are
      queued, its amount is added to totalTransferred modulo 2^64, it leaves the
      in-flight count, its line is counted, and its slot is released. */
  function CompleteStep(s: State, i: nat, report: TaskReport): State
    requires i < |s.running| && s.slots > 0 && s.currentRoutineSize > 0
  {
    s.(messages := s.messages + report.messages,
       totalTransferred := (s.totalTransferred + report.transferred) % UINT64_MODULUS,
       currentRoutineSize := s.currentRoutineSize - 1, fileCount := s.fileCount + 1,
       slots := s.slots - 1, running := s.running[..i] + s.running[i + 1..])
  }

  function CountersOf(s: State): Counters {
    Counters(s.currentRoutineSize, s.fileTotal, s.fileCount, s.totalTransferred)
  }

  /** The top of the monitor's loop: the counters are loaded. */
  function LoadStep(s: State): State
    requires s.loaded.None?
  {
    s.(loaded := Some(CountersOf(s)))
  }

  /** The monitor takes the next message. One with an error is appended to the error
      log, and a failed write is fatal (status 1); otherwise appRunning is latched. The
      monitor then goes back to the top of its loop. */
  function ReceiveStep(s: State, now: string, writeOk: bool): State
    requires s.messages != [] && s.loaded.Some?
  {
    var m := s.messages[0];
    if m.error.Some? && !writeOk then s.(messages := s.messages[1..], exitCode := Some(1), loaded := None)
    else if m.error.Some? then
      s.(messages := s.messages[1..], appRunning := true, errorLog := s.errorLog + [LogLine(now, m)], loaded := None)
    else s.(messages := s.messages[1..], appRunning := true, loaded := None)
  }

  /** The exit test of a tick, on the loaded counters. It does not ask whether the
      producer has finished. */
  predicate ExitTest(appRunning: bool, c: Counters) {
    appRunning && c.routines == 0 && c.count == c.total
  }

  /** A progress tick: exit with status 0 when the exit test holds on the loaded
      counters, otherwise back to the top of the loop. */
  function TickStep(s: State): State
    requires s.loaded.Some?
  {
    s.(exitCode := if ExitTest(s.appRunning, s.loaded.value) then Some(0) else None, loaded := None)
  }

  function ProgressOf(c: Counters): Progress {
    Progress(c.count, c.total, c.transferred, TransferUnit(c.transferred))
  }

  // ---------------------------------------------------------------------------
  // The bookkeeping invariant

  /** How many leading lines an offset has consumed after `n` lines were read. */
  function Skipped(offset: nat, n: nat): (k: nat)
    ensures k <= n && k <= offset && (k == n || k == offset)
  {
    if n < offset then n else offset
  }

  /** The pool holds one slot per running worker and at most maxRoutineSize, the
      producer waits exactly when it holds a task, and the in-flight count is the
      running workers plus that task. */
  predicate Wellformed(s: State, maxRoutineSize: nat) {
    && s.slots == |s.running| <= maxRoutineSize
    && (s.producer == Blocked <==> s.pending.Some?)
    && s.currentRoutineSize == |s.running| + |PendingSeq(s.pending)|
  }

  /** The tasks are the lines' tasks, in order. */
  ghost predicate InOrder(lines: seq<string>, tasks: seq<Task>, prefix: string) {
    tasks == TasksOf(lines, prefix)
  }

  /** Every started task has finished or is running, counting repetitions. */
  ghost predicate Conserved(spawned: seq<Task>, finished: seq<Task>, running: seq<Task>) {
    multiset(spawned) == multiset(finished) + multiset(running)
  }

  /** The state agrees with the history: fileTotal counts the lines read; the offset
      left is the flag's value less the lines it consumed; the lines after those are,
      in order, the tasks started followed by the waiting one; every started task is
      finished or running; and fileCount is the skipped lines plus the finished
      workers. */
  ghost predicate Accounted(s: State, h: History, initialOffset: nat, maxRoutineSize: nat, prefix: string) {
    var k := Skipped(initialOffset, |h.read|);
    && Wellformed(s, maxRoutineSize)
    && s.fileTotal == |h.read|
    && s.offset == initialOffset - k
    && (s.offsetDone ==> s.offset == 0)
    && InOrder(h.read[k..], h.spawned + PendingSeq(s.pending), prefix)
    && Conserved(h.spawned, h.finished, s.running)
    && s.fileCount == k + |h.finished|
  }

  /** The loaded counters were balanced when they were loaded, and the shared counters
      have only grown since. */
  predicate MonitorSound(s: State) {
    s.loaded.Some? ==>
      var c := s.loaded.value;
      c.total == c.count + c.routines && c.count <= s.fileCount && c.total <= s.fileTotal
  }

  /** A run starts accounted for, whatever the start-up outcome. */
  lemma InitialAccounted(initialOffset: nat, maxRoutineSize: nat, prefix: string,
                         producer: ProducerState, messages: seq<Message>, exitCode: Option<int>)
    requires producer != Blocked
    ensures Accounted(Initial(initialOffset, producer, messages, exitCode), History([], [], []),
                      initialOffset, maxRoutineSize, prefix)
    ensures MonitorSound(Initial(initialOffset, producer, messages, exitCode))
  {
    var empty: seq<string> := [];
    assert empty[Skipped(initialOffset, 0)..] == [];
  }

  /** The counters stay balanced: every line read is either counted or in flight, the
      pool never holds more than maxRoutineSize slots, and the in-flight count exceeds
      the held slots by at most the one task waiting for a slot. */
  lemma {:induction false} AccountedBalances(s: State, h: History, initialOffset: nat, maxRoutineSize: nat, prefix: string)
    requires Accounted(s, h, initialOffset, maxRoutineSize, prefix)
    ensures s.fileTotal == s.fileCount + s.currentRoutineSize
    ensures s.fileCount <= s.fileTotal
    ensures s.slots <= maxRoutineSize && s.currentRoutineSize <= s.slots + 1
  {
    var k := Skipped(initialOffset, |h.read|);
    assert |multiset(h.spawned)| == |multiset(h.finished)| + |multiset(s.running)|;
    assert |h.spawned + PendingSeq(s.pending)| == |h.read| - k;
  }

  /** When the exit test holds on the current counters, nothing is in flight and every
      line read so far has been counted, but nothing says the producer has reached the
      end of the manifest. */
  lemma {:induction false} QuiescentAtExit(s: State, h: History, initialOffset: nat, maxRoutineSize: nat, prefix: string)
    requires Accounted(s, h, initialOffset, maxRoutineSize, prefix) && ExitTest(s.appRunning, CountersOf(s))
    ensures s.running == [] && s.pending == None && s.producer != Blocked
    ensures s.fileCount == |h.read| && multiset(h.finished) == multiset(h.spawned)
  {
  }

  /** On current counters the exit test is exactly quiescence: a message was received,
      nothing runs or waits, and every line read so far has been counted. */
  lemma {:induction false} ExitTestIffQuiescent(s: State, h: History, initialOffset: nat, maxRoutineSize: nat, prefix: string)
    requires Accounted(s, h, initialOffset, maxRoutineSize, prefix)
    ensures ExitTest(s.appRunning, CountersOf(s))
            <==> s.appRunning && s.running == [] && s.pending == None && s.fileCount == |h.read|
  {
    if ExitTest(s.appRunning, CountersOf(s)) {
      QuiescentAtExit(s, h, initialOffset, maxRoutineSize, prefix);
    }
  }

  /** Reading a line inside the offset keeps the state accounted for. */
  lemma SkipKeepsAccounts(s: State, h: History, initialOffset: nat, maxRoutineSize: nat, prefix: string, line: string)
    requires Accounted(s, h, initialOffset, maxRoutineSize, prefix) && s.producer == Reading
    requires !s.offsetDone && s.offset > 0
    ensures Accounted(s.(fileTotal := s.fileTotal + 1, fileCount := s.fileCount + 1, offset := s.offset - 1),
                      h.(read := h.read + [line]), initialOffset, maxRoutineSize, prefix)
  {
    var read' := h.read + [line];
    assert h.read[Skipped(initialOffset, |h.read|)..] == [];
    assert read'[Skipped(initialOffset, |read'|)..] == [];
  }

  /** Reading a line past the offset, which becomes the waiting task, keeps the state
      accounted for. */
  lemma DispatchKeepsAccounts(s: State, h: History, initialOffset: nat, maxRoutineSize: nat, prefix: string, line: string)
    requires Accounted(s, h, initialOffset, maxRoutineSize, prefix) && s.producer == Reading
    requires s.offsetDone || s.offset == 0
    ensures Accounted(s.(fileTotal := s.fileTotal + 1, offsetDone := true, currentRoutineSize := s.currentRoutineSize + 1,
                         pending := Some(MakeTask(line, prefix)), producer := Blocked),
                      h.(read := h.read + [line]), initialOffset, maxRoutineSize, prefix)
  {
    var read' := h.read + [line];
    var k := Skipped(initialOffset, |h.read|);
    assert Skipped(initialOffset, |read'|) == k;
    assert read'[k..] == h.read[k..] + [line];
    TasksOfSnoc(h.read[k..], line, prefix);
  }

  /** Reading a line keeps the state accounted for. */
  lemma ReadLineKeepsAccounts(s: State, h: History, initialOffset: nat, maxRoutineSize: nat, prefix: string, line: string)
    requires Accounted(s, h, initialOffset, maxRoutineSize, prefix) && s.producer == Reading
    ensures Accounted(ReadLineStep(s, line, prefix), h.(read := h.read + [line]), initialOffset, maxRoutineSize, prefix)
    ensures MonitorSound(s) ==> MonitorSound(ReadLineStep(s, line, prefix))
  {
    if !s.offsetDone && s.offset > 0 {
      SkipKeepsAccounts(s, h, initialOffset, maxRoutineSize, prefix, line);
    } else {
      DispatchKeepsAccounts(s, h, initialOffset, maxRoutineSize, prefix, line);
    }
  }

  /** Taking a pool slot for the waiting task keeps the state accounted for. */
  lemma AcquireKeepsAccounts(s: State, h: History, initialOffset: nat, maxRoutineSize: nat, prefix: string)
    requires Accounted(s, h, initialOffset, maxRoutineSize, prefix)
    requires s.producer == Blocked && s.slots < maxRoutineSize
    ensures Accounted(AcquireStep(s), h.(spawned := h.spawned + [s.pending.value]), initialOffset, maxRoutineSize, prefix)
    ensures MonitorSound(s) ==> MonitorSound(AcquireStep(s))
  {
    assert h.spawned + [s.pending.value] + [] == h.spawned + PendingSeq(s.pending);
  }

  /** The producer stopping keeps the state accounted for. */
  lemma FinishKeepsAccounts(s: State, h: History, initialOffset: nat, maxRoutineSize: nat, prefix: string,
                            inputFile: string, readError: Option<Error>)
    requires Accounted(s, h, initialOffset, maxRoutineSize, prefix) && s.producer == Reading
    ensures Accounted(FinishStep(s, inputFile, readError), h, initialOffset, maxRoutineSize, prefix)
    ensures MonitorSound(s) ==> MonitorSound(FinishStep(s, inputFile, readError))
  {
  }

  lemma MultisetRemoveAt<T>(xs: seq<T>, i: nat)
    requires i < |xs|
    ensures multiset(xs) == multiset(xs[..i] + xs[i + 1..]) + multiset{xs[i]}
  {
    assert xs == xs[..i] + [xs[i]] + xs[i + 1..];
  }

  /** A worker's deferred block keeps the state accounted for, with that worker moved
      from running to finished. */
  lemma CompleteKeepsAccounts(s: State, h: History, initialOffset: nat, maxRoutineSize: nat, prefix: string,
                              i: nat, report: TaskReport)
    requires Accounted(s, h, initialOffset, maxRoutineSize, prefix) && i < |s.running|
    ensures Accounted(CompleteStep(s, i, report), h.(finished := h.finished + [s.running[i]]),
                      initialOffset, maxRoutineSize, prefix)
    ensures MonitorSound(s) ==> MonitorSound(CompleteStep(s, i, report))
  {
    MultisetRemoveAt(s.running, i);
  }

  /** `s` and `t` differ at most in the amount transferred and the monitor's state. */
  predicate SameAccounts(s: State, t: State) {
    && t.currentRoutineSize == s.currentRoutineSize && t.fileTotal == s.fileTotal && t.fileCount == s.fileCount
    && t.offset == s.offset && t.offsetDone == s.offsetDone && t.producer == s.producer && t.pending == s.pending
    && t.slots == s.slots && t.running == s.running
  }

  /** The invariant does not depend on the amount transferred or the monitor's state. */
  lemma AccountsIgnoreMonitor(s: State, t: State, h: History, initialOffset: nat, maxRoutineSize: nat, prefix: string)
    requires Accounted(s, h, initialOffset, maxRoutineSize, prefix)
    requires SameAccounts(s, t)
    ensures Accounted(t, h, initialOffset, maxRoutineSize, prefix)
  {
  }

  /** Loading the counters keeps the state accounted for, and what is loaded is
      balanced. */
  lemma LoadKeepsAccounts(s: State, h: History, initialOffset: nat, maxRoutineSize: nat, prefix: string)
    requires Accounted(s, h, initialOffset, maxRoutineSize, prefix) && s.loaded.None?
    ensures Accounted(LoadStep(s), h, initialOffset, maxRoutineSize, prefix)
    ensures MonitorSound(LoadStep(s))
  {
    AccountedBalances(s, h, initialOffset, maxRoutineSize, prefix);
    AccountsIgnoreMonitor(s, LoadStep(s), h, initialOffset, maxRoutineSize, prefix);
  }

  /** The monitor receiving a message keeps the state accounted for. */
  lemma ReceiveKeepsAccounts(s: State, h: History, initialOffset: nat, maxRoutineSize: nat, prefix: string,
                             now: string, writeOk: bool)
    requires Accounted(s, h, initialOffset, maxRoutineSize, prefix) && s.messages != [] && s.loaded.Some?
    ensures Accounted(ReceiveStep(s, now, writeOk), h, initialOffset, maxRoutineSize, prefix)
    ensures MonitorSound(ReceiveStep(s, now, writeOk))
  {
    var t := ReceiveStep(s, now, writeOk);
    var rest := s.messages[1..];
    if s.messages[0].error.Some? && !writeOk {
      assert t == s.(messages := rest, exitCode := Some(1), loaded := None);
    } else if s.messages[0].error.Some? {
      assert t == s.(messages := rest, appRunning := true, errorLog := s.errorLog + [LogLine(now, s.messages[0])], loaded := None);
    } else {
      assert t == s.(messages := rest, appRunning := true, loaded := None);
    }
    AccountsIgnoreMonitor(s, t, h, initialOffset, maxRoutineSize, prefix);
  }

  /** A tick keeps the state accounted for. When it exits with status 0, nothing was in
      flight when the counters were loaded and every line read by then has been
      counted; workers started since may still be running. */
  lemma TickKeepsAccounts(s: State, h: History, initialOffset: nat, maxRoutineSize: nat, prefix: string)
    requires Accounted(s, h, initialOffset, maxRoutineSize, prefix) && MonitorSound(s) && s.loaded.Some?
    ensures Accounted(TickStep(s), h, initialOffset, maxRoutineSize, prefix)
    ensures MonitorSound(TickStep(s))
    ensures TickStep(s).exitCode == Some(0) ==>
              s.loaded.value.routines == 0 && s.loaded.value.count == s.loaded.value.total <= s.fileCount
  {
    AccountsIgnoreMonitor(s, TickStep(s), h, initialOffset, maxRoutineSize, prefix);
  }

  /** A tick whose loaded counters are still current exits only when nothing is in
      flight and every line read has been counted. */
  lemma TickOnCurrentCounters(s: State, h: History, initialOffset: nat, maxRoutineSize: nat, prefix: string)
    requires Accounted(s, h, initialOffset, maxRoutineSize, prefix) && s.loaded == Some(CountersOf(s))
    ensures TickStep(s).exitCode == Some(0) ==> s.running == [] && s.pending == None && s.fileCount == |h.read|
  {
    if ExitTest(s.appRunning, CountersOf(s)) {
      QuiescentAtExit(s, h, initialOffset, maxRoutineSize, prefix);
    }
  }

  /** The exit test does not wait for the producer: after the first worker's done
      message a tick exits with status 0 while the producer is still reading the
      manifest, so any later lines are never read. */
  lemma ExitBeforeEndOfManifest()
    ensures var s1 := ReadLineStep(Initial(0, Reading, [], None), "a.jpg", "");
            var s2 := AcquireStep(s1);
            var s3 := CompleteStep(s2, 0, TaskReport([Message("\"a.jpg\" -> \"a.jpg\" done. Time elapsed 0 sec", "", None)], 0, None));
            var s4 := TickStep(LoadStep(ReceiveStep(LoadStep(s3), "now", true)));
            s4.exitCode == Some(0) && s4.producer == Reading && s4.fileTotal == 1
  {
    var s1 := ReadLineStep(Initial(0, Reading, [], None), "a.jpg", "");
    var s2 := AcquireStep(s1);
    assert s2.running == [MakeTask("a.jpg", "")] && s2.slots == 1 && s2.currentRoutineSize == 1;
    var s3 := CompleteStep(s2, 0, TaskReport([Message("\"a.jpg\" -> \"a.jpg\" done. Time elapsed 0 sec", "", None)], 0, None));
    assert s3.currentRoutineSize == 0 && s3.fileCount == s3.fileTotal == 1 && s3.messages != [];
    var s4 := LoadStep(ReceiveStep(LoadStep(s3), "now", true));
    assert s4.appRunning && s4.loaded == Some(Counters(0, 1, 1, 0)) && s4.producer == Reading;
  }

  /** The tick decides on counters loaded before it waited: the monitor loads them
      after the first done message, then the producer reads a second line and starts
      its worker, and the tick exits with status 0 while that worker is uploading. */
  lemma ExitWithWorkerInFlight()
    ensures var s1 := AcquireStep(ReadLineStep(Initial(0, Reading, [], None), "a.jpg", ""));
            var s2 := CompleteStep(s1, 0, TaskReport([Message("\"a.jpg\" -> \"a.jpg\" done. Time elapsed 0 sec", "", None)], 0, None));
            var s3 := LoadStep(ReceiveStep(LoadStep(s2), "now", true));
            var s4 := AcquireStep(ReadLineStep(s3, "b.jpg", ""));
            var s5 := TickStep(s4);
            s5.exitCode == Some(0) && s5.running == [MakeTask("b.jpg", "")] && s5.currentRoutineSize == 1
  {
    var s1 := AcquireStep(ReadLineStep(Initial(0, Reading, [], None), "a.jpg", ""));
    assert s1.running == [MakeTask("a.jpg", "")] && s1.slots == 1 && s1.currentRoutineSize == 1;
    var s2 := CompleteStep(s1, 0, TaskReport([Message("\"a.jpg\" -> \"a.jpg\" done. Time elapsed 0 sec", "", None)], 0, None));
    assert s2.running == [] && s2.currentRoutineSize == 0 && s2.fileCount == s2.fileTotal == 1 && s2.messages != [];
    var s3 := LoadStep(ReceiveStep(LoadStep(s2), "now", true));
    assert s3.appRunning && s3.loaded == Some(Counters(0, 1, 1, 0)) && s3.producer == Reading;
    var s4 := AcquireStep(ReadLineStep(s3, "b.jpg", ""));
    assert s4.running == [MakeTask("b.jpg", "")] && s4.loaded == s3.loaded && s4.appRunning;
  }

  /** A one-line manifest naming a local file that cannot be opened, with 2.0.0 run
      silently: the error-log gets one line carrying the source line and the open
      error, the line is counted as processed, and the run exits with status 0. */
  lemma MissingLocalFileLogged(res: MetaReader.Resolver, put: PutRequest -> Option<Error>, e: Error)
    requires res.fs.open("missing.jpg") == Some(e)
    ensures var t := MakeTask("missing.jpg", "");
            var s2 := AcquireStep(ReadLineStep(Initial(0, Reading, [], None), "missing.jpg", ""));
            var s3 := CompleteStep(s2, 0, Upload.Upload(true, t, MetaReader.NewMeta(false, t.source, res), put, 0));
            var s4 := ReceiveStep(LoadStep(ReceiveStep(LoadStep(FinishStep(s3, "manifest.txt", None)), "now", true)), "now", true);
            && s4.errorLog == [LogLine("now", Message("", "missing.jpg", Some(e)))]
            && s4.fileCount == 1 && s4.totalTransferred == 0 && TickStep(LoadStep(s4)).exitCode == Some(0)
  {
    GoStrings.RemoveAllEmptyPrefix("missing.jpg");
  }

  const ReadErrorOfNilFile: Error := Opaque("invalid argument")

  // ---------------------------------------------------------------------------
  // The run as an object

  class Pipeline {
    const version: Version
    const maxRoutineSize: nat
    const silent: bool
    const prefix: string
    const inputFile: string
    const sourceIsS3: bool

    // The shared counters
    var currentRoutineSize: nat
    var fileTotal: nat
    var fileCount: nat
    var totalTransferred: Uint64
    var offset: nat

    // The producer
    var offsetDone: bool
    var producer: ProducerState
    var pending: Option<Task>

    // The pool
    var slots: nat
    var running: seq<Task>

    // The messages channel and the monitor
    var messages: seq<Message>
    var appRunning: bool
    var errorLog: seq<string>
    var exitCode: Option<int>
    var loaded: Option<Counters>

    function Snapshot(): State
      reads this
    {
      State(currentRoutineSize, fileTotal, fileCount, totalTransferred, offset, offsetDone, producer, pending,
            slots, running, messages, appRunning, errorLog, exitCode, loaded)
    }

    predicate Valid()
      reads this
    {
      Wellformed(Snapshot(), maxRoutineSize)
    }

    /** Version 2.0.0 at start: `log.Fatalln` (status 1) when the manifest or the error
        log cannot be opened. */
    constructor Version2(maxRoutineSize: nat, offset: nat, prefix: string, silent: bool,
                         inputFile: string, sourceIsS3: bool, manifestOpened: bool, errorLogOpened: bool)
      ensures Valid()
      ensures this.version == V2 && this.maxRoutineSize == maxRoutineSize && this.prefix == prefix
      ensures this.silent == silent && this.inputFile == inputFile && this.sourceIsS3 == sourceIsS3
      ensures Snapshot() == Initial(offset, Reading, [], if manifestOpened && errorLogOpened then None else Some(1))
    {
      this.version := V2;
      this.maxRoutineSize := maxRoutineSize;
      this.silent := silent;
      this.prefix := prefix;
      this.inputFile := inputFile;
      this.sourceIsS3 := sourceIsS3;
      this.offset := offset;
      currentRoutineSize, fileTotal, fileCount, totalTransferred := 0, 0, 0, 0;
      offsetDone, producer, pending := false, Reading, None;
      slots, running := 0, [];
      messages, appRunning, errorLog := [], false, [];
      exitCode := if manifestOpened && errorLogOpened then None else Some(1);
      loaded := None;
    }

    /** Version 1.0.1 at start: an unopened manifest is not fatal; reading the nil file
        fails at once, so the producer sends that error and stops. An unopenable error
        log is fatal. */
    constructor Version1(maxRoutineSize: nat, offset: nat, prefix: string, silent: bool,
                         inputFile: string, manifestOpened: bool, errorLogOpened: bool)
      ensures Valid()
      ensures this.version == V1 && this.maxRoutineSize == maxRoutineSize && this.prefix == prefix
      ensures this.silent == silent && this.inputFile == inputFile && !this.sourceIsS3
      ensures Snapshot() == Initial(offset, if manifestOpened then Reading else Finished,
                                    if manifestOpened then [] else [Message("", "", Some(ReadErrorOfNilFile))],
                                    if errorLogOpened then None else Some(1))
    {
      this.version := V1;
      this.maxRoutineSize := maxRoutineSize;
      this.silent := silent;
      this.prefix := prefix;
      this.inputFile := inputFile;
      this.sourceIsS3 := false;
      this.offset := offset;
      currentRoutineSize, fileTotal, fileCount, totalTransferred := 0, 0, 0, 0;
      offsetDone, pending := false, None;
      slots, running := 0, [];
      appRunning, errorLog := false, [];
      if manifestOpened {
        producer, messages := Reading, [];
      } else {
        producer, messages := Finished, [Message("", "", Some(ReadErrorOfNilFile))];
      }
      exitCode := if errorLogOpened then None else Some(1);
      loaded := None;
    }

    /** The producer reads one line. */
    method ReadLine(line: string)
      requires Valid() && exitCode == None && producer == Reading
      modifies this
      ensures Valid()
      ensures Snapshot() == ReadLineStep(old(Snapshot()), line, prefix)
    {
      fileTotal := fileTotal + 1;
      if !offsetDone {
        if offset > 0 {
          fileCount := fileCount + 1;
          offset := offset - 1;
          return;
        } else {
          offsetDone := true;
        }
      }
      currentRoutineSize := currentRoutineSize + 1;
      pending := Some(MakeTask(line, prefix));
      producer := Blocked;
    }

    /** The producer gets a pool slot once one is free and starts the worker. */
    method AcquireSlot()
      requires Valid() && exitCode == None && producer == Blocked && slots < maxRoutineSize
      modifies this
      ensures Valid()
      ensures Snapshot() == AcquireStep(old(Snapshot()))
    {
      var task := pending.value;
      slots := slots + 1;
      running := running + [task];
      pending := None;
      producer := Reading;
    }

    /** The producer's loop ends, at end of file or on a read error. */
    method FinishReading(readError: Option<Error>)
      requires Valid() && exitCode == None && producer == Reading
      modifies this
      ensures Valid()
      ensures Snapshot() == FinishStep(old(Snapshot()), inputFile, readError)
    {
      producer := Finished;
      if readError.None? {
        messages := messages + [Message("File \"" + inputFile + "\" read!", "", None)];
      } else {
        messages := messages + [Message("", "", readError)];
      }
    }

    /** The deferred block of either version's uploadToS3, for the worker in flight at
        position `i`. */
    method Complete(i: nat, report: TaskReport)
      requires Valid() && exitCode == None && i < |running|
      modifies this
      ensures Valid()
      ensures Snapshot() == CompleteStep(old(Snapshot()), i, report)
    {
      messages := messages + report.messages;
      totalTransferred := (totalTransferred + report.transferred) % UINT64_MODULUS;
      currentRoutineSize := currentRoutineSize - 1;
      fileCount := fileCount + 1;
      slots := slots - 1;
      running := running[..i] + running[i + 1..];
    }

    /** A 2.0.0 worker runs to completion: NewMeta for its source, then the upload. */
    method CompleteV2(i: nat, res: MetaReader.Resolver, put: PutRequest -> Option<Error>, elapsed: int)
      requires Valid() && exitCode == None && i < |running| && version == V2
      modifies this
      ensures Valid()
      ensures Snapshot() == CompleteStep(old(Snapshot()), i,
                Upload.Upload(silent, old(running)[i], MetaReader.NewMeta(sourceIsS3, old(running)[i].source, res), put, elapsed))
    {
      var task := running[i];
      Complete(i, Upload.Upload(silent, task, MetaReader.NewMeta(sourceIsS3, task.source, res), put, elapsed));
    }

    /** A 1.0.1 worker runs to completion. */
    method CompleteV1(i: nat, fs: ScotUpload.ScotFs, put: PutRequest -> Option<Error>, elapsed: int)
      requires Valid() && exitCode == None && i < |running| && version == V1
      modifies this
      ensures Valid()
      ensures Snapshot() == CompleteStep(old(Snapshot()), i, ScotUpload.Upload(silent, old(running)[i], fs, put, elapsed).report)
    {
      var task := running[i];
      Complete(i, ScotUpload.Upload(silent, task, fs, put, elapsed).report);
    }

    /** The top of the monitor's loop: the four atomic loads. */
    method Load()
      requires Valid() && exitCode == None && loaded == None
      modifies this
      ensures Valid()
      ensures Snapshot() == LoadStep(old(Snapshot()))
    {
      loaded := Some(Counters(currentRoutineSize, fileTotal, fileCount, totalTransferred));
    }

    /** The monitor takes the next message. */
    method Receive(now: string, writeOk: bool)
      requires Valid() && exitCode == None && messages != [] && loaded.Some?
      modifies this
      ensures Valid()
      ensures Snapshot() == ReceiveStep(old(Snapshot()), now, writeOk)
    {
      var m := messages[0];
      messages := messages[1..];
      loaded := None;
      if m.error.Some? {
        if !writeOk {
          exitCode := Some(1);
          return;
        }
        errorLog := errorLog + [LogLine(now, m)];
      }
      appRunning := true;
    }

    /** A progress tick: report the loaded counters, then exit with status 0 if the exit
        test holds on them; at that point nothing was in flight when they were loaded. */
    method Tick() returns (p: Progress)
      requires Valid() && exitCode == None && loaded.Some?
      modifies this
      ensures Valid()
      ensures p == ProgressOf(old(loaded).value)
      ensures Snapshot() == TickStep(old(Snapshot()))
      ensures exitCode == Some(0) ==> old(loaded).value.routines == 0 && old(loaded).value.count == old(loaded).value.total
    {
      var c := loaded.value;
      p := Progress(c.count, c.total, c.transferred, TransferUnit(c.transferred));
      if appRunning && c.routines == 0 && c.count == c.total {
        exitCode := Some(0);
      }
      loaded := None;
    }
  }
}
