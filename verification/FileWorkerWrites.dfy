/** What becomes of one record: the way of its text from the executor's queue into the sink, and its acknowledgement. */
module FileWorkerWrites {
  import opened Records
  import opened FileWorker
  import opened FileWorkerTheorems
  import P = Pipeline

  /** The coroutine awaits the write of `r`, which the thread has not begun. */
  predicate WriteQueued(s: State, r: LogRecord) {
    s.task.pc == AwaitingWrite(r) && Queued(s.exec, Write(r, s.task.cycle)) && s.exec.stage.Idle?
  }

  /** The handle the text goes to when `open()` goes well: the host's, the open one, or the next to be opened. */
  function HandleFor(s: State): nat {
    if !s.sink.Owned? then 0 else if s.disk.stream.Some? then s.disk.stream.value else s.disk.openCount + 1
  }

  /** `open()` is not called for a sink of the host's, nor while the stream is open. */
  predicate NeedsOpen(s: State) {
    s.sink.Owned? && s.disk.stream == None
  }

  /** What the thread and the coroutine do for one record, whatever `open()` and `write()` come to. */
  function WayOfWrite(s: State, opens: bool, writes: bool): seq<Action> {
    if NeedsOpen(s) && !opens then [TakeOp, OpenStep(opens), ResumeWrite]
    else [TakeOp, OpenStep(opens), WriteStep(writes), ResumeWrite]
  }

  lemma ThreeSteps(s: State, a: Action, b: Action, c: Action)
    requires Enabled(s, a) && Enabled(Apply(s, a), b) && Enabled(Apply(Apply(s, a), b), c)
    ensures IsRun(s, [a, b, c]) && Exec(s, [a, b, c]) == Apply(Apply(Apply(s, a), b), c)
  {
    hide Enabled, Apply;
    NoSteps(s);
    RunSnoc(s, [], a);
    assert [] + [a] == [a];
    RunSnoc(s, [a], b);
    assert [a] + [b] == [a, b];
    RunSnoc(s, [a, b], c);
    assert [a, b] + [c] == [a, b, c];
  }

  lemma FourSteps(s: State, a: Action, b: Action, c: Action, d: Action)
    requires Enabled(s, a) && Enabled(Apply(s, a), b) && Enabled(Apply(Apply(s, a), b), c)
    requires Enabled(Apply(Apply(Apply(s, a), b), c), d)
    ensures IsRun(s, [a, b, c, d]) && Exec(s, [a, b, c, d]) == Apply(Apply(Apply(Apply(s, a), b), c), d)
  {
    hide Enabled, Apply;
    ThreeSteps(s, a, b, c);
    RunSnoc(s, [a, b, c], d);
    assert [a, b, c] + [d] == [a, b, c, d];
  }

  /** The host's sink is at hand. */
  predicate SinkKnown(s: State) {
    && (s.sink.Injected? ==> s.disk.stream == Some(0))
    && (s.sink.Stdout? ==> s.disk.stream == None)
  }

  lemma SinkIsKnown(s: State)
    requires Reachable(s)
    ensures SinkKnown(s)
    ensures !s.sink.Owned? ==> s.disk.closed == {}
    ensures HandleFor(s) in s.disk.closed ==> s.disk.stream.Some? && s.sink.Owned?
    ensures s.exec.stage.Idle? && HandleFor(s) in s.disk.closed ==> s.strays != []
  {
    ReachableInv(s);
  }

  /** `s` with the thread at the text of `r`. */
  function WithHandle(s: State, r: LogRecord): State {
    s.(exec := Executor([], Writing(r, s.task.cycle, HandleFor(s)), true, None),
       disk := s.disk.(stream := if s.sink.Stdout? then None else Some(HandleFor(s)),
                       openCount := s.disk.openCount + (if NeedsOpen(s) then 1 else 0)))
  }

  lemma OpenGoesWell(s: State, r: LogRecord, opens: bool)
    requires SinkKnown(s) && WriteQueued(s, r) && (NeedsOpen(s) ==> opens)
    ensures Enabled(s, TakeOp) && Enabled(Apply(s, TakeOp), OpenStep(opens))
    ensures Apply(Apply(s, TakeOp), OpenStep(opens)) == WithHandle(s, r)
  {
  }

  lemma OpenFails(s: State, r: LogRecord)
    requires WriteQueued(s, r) && NeedsOpen(s)
    ensures Enabled(s, TakeOp) && Enabled(Apply(s, TakeOp), OpenStep(false))
    ensures Apply(Apply(s, TakeOp), OpenStep(false)) == s.(exec := Executor([], Idle, false, Some(false)))
  {
  }

  lemma WriteComesBack(s: State, r: LogRecord, writes: bool)
    requires WriteQueued(s, r)
    ensures var t, e := WithHandle(s, r), Entry(r, HandleFor(s), s.task.cycle);
      var isOpen := e.handle !in s.disk.closed;
      && Enabled(t, WriteStep(writes))
      && Apply(t, WriteStep(writes)) ==
          t.(exec := Executor([], Idle, false, Some(isOpen && writes)),
             disk := t.disk.(written := t.disk.written + (if isOpen && writes then [e] else []),
                             spoiled := t.disk.spoiled + (if isOpen then [] else [e])))
  {
  }

  lemma Resumes(s: State, r: LogRecord, good: bool)
    requires s.task.pc == AwaitingWrite(r) && s.exec.result == Some(good)
    ensures Enabled(s, ResumeWrite)
    ensures var t := Apply(s, ResumeWrite);
      && t.disk == s.disk && t.past.acks == s.past.acks + [P.Ack(r, if good then P.Delivered else P.Reported)]
      && t.exec == s.exec.(result := None) && t.strays == s.strays
      && t.task == s.task.(pc := LoopHead) && t.queue == s.queue.(unfinished := s.queue.unfinished - 1)
  {
  }

  /** The run of one write, up to its acknowledgement. */
  lemma WriteRuns(s: State, r: LogRecord, opens: bool, writes: bool)
    requires SinkKnown(s) && WriteQueued(s, r)
    ensures IsRun(s, WayOfWrite(s, opens, writes))
    ensures var t, e := Exec(s, WayOfWrite(s, opens, writes)), Entry(r, HandleFor(s), s.task.cycle);
      var has, isOpen := NeedsOpen(s) ==> opens, e.handle !in s.disk.closed;
      && t.disk.written == s.disk.written + (if has && isOpen && writes then [e] else [])
      && t.disk.spoiled == s.disk.spoiled + (if has && !isOpen then [e] else [])
      && t.past.acks == s.past.acks + [P.Ack(r, if has && isOpen && writes then P.Delivered else P.Reported)]
      && t.disk.stream == (if has && !s.sink.Stdout? then Some(e.handle) else None)
      && t.disk.openCount == s.disk.openCount + (if NeedsOpen(s) && opens then 1 else 0)
      && t.disk.closed == s.disk.closed && t.task == s.task.(pc := LoopHead)
  {
    hide IsRun, Exec;
    if NeedsOpen(s) && !opens {
      OpenFails(s, r);
      var t := s.(exec := Executor([], Idle, false, Some(false)));
      Resumes(t, r, false);
      hide Apply, Enabled;
      ThreeSteps(s, TakeOp, OpenStep(false), ResumeWrite);
    } else {
      OpenGoesWell(s, r, opens);
      WriteComesBack(s, r, writes);
      var isOpen := HandleFor(s) !in s.disk.closed;
      hide Apply, Enabled;
      Resumes(Apply(WithHandle(s, r), WriteStep(writes)), r, isOpen && writes);
      FourSteps(s, TakeOp, OpenStep(opens), WriteStep(writes), ResumeWrite);
    }
  }

  // ----- the theorems -----

  /**
   * An operation the thread has begun is never dropped: whatever the coroutine or anybody else does, it goes on where it
   * is, or as a stray when its worker is cancelled at its close.
   */
  lemma BegunGoesOn(s: State, a: Action)
    requires Reachable(s) && Enabled(s, a) && !OfThread(a) && !s.exec.stage.Idle?
    ensures var t := Apply(s, a);
      || (t.exec.stage == s.exec.stage && t.strays == s.strays)
      || (a.Cancel? && s.task.pc.AwaitingClose? && t.strays == s.strays + [s.exec.stage])
  {
    ReachableInv(s);
    hide Reachable;
  }

  /** A stray stays what it is until its own next step. */
  lemma StraysGoOn(s: State, a: Action, k: nat)
    requires Enabled(s, a) && k < |s.strays| && (a.StrayStep? ==> a.k != k)
    ensures k < |Apply(s, a).strays| && Apply(s, a).strays[k] == s.strays[k]
  {
  }

  /** Standard output, and a file of the host's, gets the text of a record whose write goes well. */
  lemma HostGetsText(s: State, r: LogRecord, opens: bool, writes: bool)
    requires Reachable(s) && !s.sink.Owned? && WriteQueued(s, r)
    ensures IsRun(s, [TakeOp, OpenStep(opens), WriteStep(writes), ResumeWrite])
    ensures var t := Exec(s, [TakeOp, OpenStep(opens), WriteStep(writes), ResumeWrite]);
      && t.disk == s.disk.(written := s.disk.written + (if writes then [Entry(r, 0, s.task.cycle)] else []))
      && t.past.acks == s.past.acks + [P.Ack(r, if writes then P.Delivered else P.Reported)]
  {
    hide IsRun, Exec, Reachable;
    SinkIsKnown(s);
    WriteRuns(s, r, opens, writes);
  }

  /**
   * An owned file gets it on the open handle, or on the one that `open()` brings; when `open()` or the write fails, or
   * a teardown of an earlier worker has closed that handle, the record is reported and nothing is written.
   */
  lemma OwnedFileGetsText(s: State, r: LogRecord, opens: bool, writes: bool)
    requires Reachable(s) && s.sink.Owned? && WriteQueued(s, r)
    ensures IsRun(s, WayOfWrite(s, opens, writes))
    ensures var t := Exec(s, WayOfWrite(s, opens, writes));
      var handle := if s.disk.stream.Some? then s.disk.stream.value else s.disk.openCount + 1;
      var good := (s.disk.stream.Some? || opens) && writes && handle !in s.disk.closed;
      && t.disk.written == s.disk.written + (if good then [Entry(r, handle, s.task.cycle)] else [])
      && t.past.acks == s.past.acks + [P.Ack(r, if good then P.Delivered else P.Reported)]
      && t.disk.stream == (if s.disk.stream.Some? || opens then Some(handle) else None)
      && t.disk.openCount == s.disk.openCount + (if s.disk.stream == None && opens then 1 else 0)
      && (s.strays == [] ==> handle !in s.disk.closed)
  {
    hide IsRun, Exec, Reachable;
    SinkIsKnown(s);
    WriteRuns(s, r, opens, writes);
  }
}
