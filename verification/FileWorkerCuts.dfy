/** Each cancellation of the worker's last await does break its promise: from every state that meets it, and one is met. */
module FileWorkerCuts {
  import opened Records
  import opened Sequences
  import opened FileWorker
  import opened FileWorkerTheorems
  import opened FileWorkerTeardown
  import P = Pipeline

  // ----- runs, one step at a time -----

  ghost predicate LeadsTo(s: State, t: State) {
    exists acts: seq<Action> :: IsRun(s, acts) && Exec(s, acts) == t
  }

  lemma LeadsNowhere(s: State)
    ensures LeadsTo(s, s)
  {
    NoSteps(s);
  }

  lemma LeadsOn(s: State, t: State, a: Action)
    requires LeadsTo(s, t) && Enabled(t, a)
    ensures LeadsTo(s, Apply(t, a))
  {
    hide IsRun, Exec, Enabled, Apply;
    var acts: seq<Action> :| IsRun(s, acts) && Exec(s, acts) == t;
    RunSnoc(s, acts, a);
  }

  lemma Discards(s: State, t: State) returns (u: State)
    requires LeadsTo(s, t) && t.task.pc.Ended?
    ensures LeadsTo(s, u) && u == t.(queue := u.queue, past := t.past.(removed := u.past.removed)) && u.queue.items == []
    decreases |t.queue.items|
  {
    hide LeadsTo;
    if t.queue.items == [] {
      u := t;
    } else {
      LeadsOn(s, t, Discard);
      u := Discards(s, Apply(t, Discard));
    }
  }

  /** What is left running when the worker is cancelled in its last await. */
  function LeftBehind(s: State): seq<Stage> {
    if s.exec.stage.Idle? then s.strays else s.strays + [s.exec.stage]
  }

  /** The worker of the next cycle is at its first loop test. */
  predicate AtStart(s: State, t: State) {
    && t.sink == s.sink && t.task == Task(LoopHead, true, false, s.task.cycle + 1) && t.exec == FRESH_EXECUTOR
    && t.disk == s.disk && t.queue.items == [] && t.past.dequeued == s.past.dequeued
  }

  /** The worker is cancelled in its last await; stop discards what is queued, and the handler is started again. */
  lemma Restarts(s: State) returns (t: State)
    requires s.task.pc.AwaitingClose?
    ensures LeadsTo(s, t) && AtStart(s, t) && t.strays == LeftBehind(s)
  {
    hide LeadsTo;
    LeadsNowhere(s);
    LeadsOn(s, s, Cancel);
    var u := Apply(s, Cancel);
    LeadsOn(s, u, ClearRunning);
    u := Discards(s, Apply(u, ClearRunning));
    LeadsOn(s, u, Start);
    t := Apply(u, Start);
  }

  // ----- a live write is abandoned -----

  /** The stream, if open, is not closed. */
  predicate Usable(sink: Sink, d: Disk) {
    && !sink.Stdout? && (d.stream.Some? ==> d.stream.value !in d.closed) && (forall h | h in d.closed :: h <= d.openCount)
    && (sink.Injected? ==> d.stream == Some(0))
  }

  /** A stray that has closed the stream lets go of it. */
  lemma Resets(s: State, t: State) returns (u: State)
    requires LeadsTo(s, t) && SinkOk(t.sink, t.exec, t.strays, t.disk) && t.exec == FRESH_EXECUTOR && !t.sink.Stdout?
    ensures LeadsTo(s, u) && u == t.(disk := t.disk.(stream := u.disk.stream), strays := u.strays) && Usable(u.sink, u.disk)
    ensures |u.strays| == |t.strays| && forall k | 0 <= k < |t.strays| && IsWrite(t.strays[k]) :: u.strays[k] == t.strays[k]
  {
    hide LeadsTo;
    if t.disk.stream.Some? && t.disk.stream.value in t.disk.closed {
      assert IsResetting(t.strays);
      var j: nat :| j < |t.strays| && t.strays[j].Resetting?;
      LeadsOn(s, t, StrayStep(j, true));
      u := Apply(t, StrayStep(j, true));
    } else {
      u := t;
    }
  }

  /** The thread is at the write of the next cycle's first record. */
  lemma BeginsWrite(s: State, t: State, r: LogRecord) returns (u: State)
    requires LeadsTo(s, t) && t.exec == FRESH_EXECUTOR && t.task.pc.LoopHead? && t.task.running && t.queue.items == []
    ensures LeadsTo(s, u) && u.sink == t.sink && u.strays == t.strays && u.disk == t.disk
    ensures u.exec == Executor([], Opening(r, t.task.cycle), true, None) && u.past.dequeued == t.past.dequeued + [r]
  {
    hide LeadsTo;
    LeadsOn(s, t, Put(r));
    var t1 := Apply(t, Put(r));
    LeadsOn(s, t1, LoopTest);
    var t2 := Apply(t1, LoopTest);
    LeadsOn(s, t2, GetRecord(Text));
    var t3 := Apply(t2, GetRecord(Text));
    LeadsOn(s, t3, TakeOp);
    u := Apply(t3, TakeOp);
  }

  /** The next cycle's first record is written. */
  lemma WritesNext(s: State, t: State, r: LogRecord) returns (u: State)
    requires LeadsTo(s, t) && Usable(t.sink, t.disk) && t.exec == FRESH_EXECUTOR
    requires t.task.pc.LoopHead? && t.task.running && t.queue.items == []
    ensures LeadsTo(s, u) && u.sink == t.sink && u.strays == t.strays && u.past.dequeued == t.past.dequeued + [r]
    ensures Usable(u.sink, u.disk) && u.disk.stream.Some? && u.disk.closed == t.disk.closed
    ensures u.disk.written == t.disk.written + [Entry(r, u.disk.stream.value, t.task.cycle)]
  {
    hide LeadsTo;
    var t1 := BeginsWrite(s, t, r);
    u := WritesIt(s, t1);
  }

  lemma WritesIt(s: State, t: State) returns (u: State)
    requires LeadsTo(s, t) && Usable(t.sink, t.disk) && t.exec.stage.Opening?
    ensures LeadsTo(s, u) && u.sink == t.sink && u.strays == t.strays && u.past == t.past
    ensures Usable(u.sink, u.disk) && u.disk.stream.Some? && u.disk.closed == t.disk.closed
    ensures u.disk.written == t.disk.written + [Entry(t.exec.stage.record, u.disk.stream.value, t.exec.stage.cycle)]
  {
    hide LeadsTo;
    LeadsOn(s, t, OpenStep(true));
    var t1 := Apply(t, OpenStep(true));
    LeadsOn(s, t1, WriteStep(true));
    u := Apply(t1, WriteStep(true));
  }

  /** Then the stray gets to its write. */
  lemma StrayWrites(s: State, t: State, k: nat) returns (u: State)
    requires LeadsTo(s, t) && Usable(t.sink, t.disk) && t.disk.stream.Some?
    requires k < |t.strays| && IsWrite(t.strays[k]) && (t.strays[k].Writing? ==> t.strays[k].handle !in t.disk.closed)
    ensures LeadsTo(s, u) && u.past == t.past && |u.disk.written| == |t.disk.written| + 1
    ensures var e := u.disk.written[|t.disk.written|];
      u.disk.written == t.disk.written + [e] && e.record == t.strays[k].record && e.cycle == t.strays[k].cycle
  {
    hide LeadsTo;
    LeadsOn(s, t, StrayStep(k, true));
    u := Apply(t, StrayStep(k, true));
    if t.strays[k].Opening? {
      LeadsOn(s, u, StrayStep(k, true));
      u := Apply(u, StrayStep(k, true));
    }
  }

  lemma AbandonedSink(s: State, t: State)
    requires Inv(s) && CutLiveWrite(s, Cancel) && AtStart(s, t) && t.strays == LeftBehind(s)
    ensures SinkOk(t.sink, t.exec, t.strays, t.disk) && !t.sink.Stdout?
    ensures s.exec.stage.cycle == s.task.cycle
  {
    hide RecordsOk, OnceOk, DeliveredOk, ExitOk;
    ResettingAdded(s.strays, s.exec.stage);
    hide IsResetting;
  }

  /** A text dequeued last but written before another one is out of order. */
  lemma OutOfOrder(texts: seq<LogRecord>, before: seq<LogRecord>, late: LogRecord, early: LogRecord)
    requires late !in before && early in before
    ensures !Subsequence(texts + [late] + [early], before + [late])
  {
    var all := texts + [late] + [early];
    assert all[|all| - 1] == early && all[|all| - 2] == late;
    assert (before + [late])[..|before|] == before;
    if Subsequence(all, before) {
      Among(all, before, late);
    }
  }

  lemma Among(sub: seq<LogRecord>, all: seq<LogRecord>, x: LogRecord)
    requires Subsequence(sub, all) && x in sub
    ensures x in all
  {
    SubsequenceCounts(sub, all);
    assert multiset(sub)[x] <= multiset(all)[x];
  }

  /** The next cycle writes a text, and then the stray writes its own. */
  lemma WritesBoth(s: State, t: State, r: LogRecord, k: nat) returns (u: State)
    requires LeadsTo(s, t) && SinkOk(t.sink, t.exec, t.strays, t.disk) && !t.sink.Stdout?
    requires t.exec == FRESH_EXECUTOR && t.task.pc.LoopHead? && t.task.running && t.queue.items == []
    requires k < |t.strays| && IsWrite(t.strays[k]) && (t.strays[k].Writing? ==> t.strays[k].handle !in t.disk.closed)
    ensures LeadsTo(s, u) && u.past.dequeued == t.past.dequeued + [r]
    ensures Added(t.disk.written, u.disk.written, r, t.task.cycle, t.strays[k].record, t.strays[k].cycle)
  {
    hide LeadsTo, SinkOk;
    var t1 := Resets(s, t);
    var t2 := WritesNext(s, t1, r);
    u := StrayWrites(s, t2, k);
    var n := |t.disk.written|;
    assert u.disk.written == t.disk.written + [u.disk.written[n]] + [u.disk.written[n + 1]];
  }

  /** Two entries more: a record of one cycle, then a record of another. */
  ghost predicate Added(before: seq<Entry>, after: seq<Entry>, r: LogRecord, c: nat, q: LogRecord, d: nat) {
    && |after| == |before| + 2 && after == before + [after[|before|]] + [after[|before| + 1]]
    && after[|before|].record == r && after[|before|].cycle == c
    && after[|before| + 1].record == q && after[|before| + 1].cycle == d
  }

  lemma AddedTexts(before: seq<Entry>, after: seq<Entry>, r: LogRecord, c: nat, q: LogRecord, d: nat)
    requires Added(before, after, r, c, q, d)
    ensures Texts(after) == Texts(before) + [r] + [q]
  {
    LastTwo(before, after[|before|], after[|before| + 1]);
  }

  /**
   * Wherever a run meets such a cancellation, it can go on to a text of the next cycle that precedes one of this cycle,
   * and so the texts in the sink are not in the order of the queue.
   */
  lemma CutLiveWriteMixes(s: State, r: LogRecord) returns (t: State)
    requires Reachable(s) && CutLiveWrite(s, Cancel)
    ensures LeadsTo(s, t) && !CyclesOk(t.task, t.disk)
    ensures t.past.dequeued == s.past.dequeued + [r]
    ensures Texts(t.disk.written) == Texts(s.disk.written) + [r] + [s.exec.stage.record]
    ensures r !in s.past.dequeued ==> !Subsequence(Texts(t.disk.written), t.past.dequeued)
  {
    hide LeadsTo, Inv, SinkOk, Texts, Subsequence, Reachable, CyclesOk;
    ReachableInv(s);
    var t0 := Restarts(s);
    AbandonedSink(s, t0);
    AbandonedIsDequeued(s);
    t := WritesBoth(s, t0, r, |s.strays|);
    AddedTexts(s.disk.written, t.disk.written, r, s.task.cycle + 1, s.exec.stage.record, s.task.cycle);
    EarlierBehind(t, |s.disk.written|);
    if r !in s.past.dequeued {
      OutOfOrder(Texts(s.disk.written), s.past.dequeued, r, s.exec.stage.record);
    }
  }

  lemma LastTwo(written: seq<Entry>, e: Entry, f: Entry)
    ensures Texts(written + [e] + [f]) == Texts(written) + [e.record] + [f.record]
  {
    TextsSnoc(written, e);
    TextsSnoc(written + [e], f);
  }

  lemma EarlierBehind(t: State, n: nat)
    requires n + 1 < |t.disk.written| && t.disk.written[n + 1].cycle < t.disk.written[n].cycle
    ensures !CyclesOk(t.task, t.disk)
  {
  }

  /** The write left running is one of a record taken from the queue. */
  lemma AbandonedIsDequeued(s: State)
    requires Inv(s) && IsWrite(s.exec.stage)
    ensures s.exec.stage.record in s.past.dequeued
  {
    hide RecordsOk, DeliveredOk, ExitOk, SinkOk, ExecOk;
    assert InExecutor(s.exec) == [s.exec.stage.record];
    assert s.exec.stage.record in Underway(s.exec, s.strays, s.disk);
  }

  /** The worker has ended and a write of it is left. */
  lemma CutBehindWriteOutlives(s: State)
    requires CutBehindWrite(s, Cancel)
    ensures Enabled(s, Cancel)
    ensures var t := Apply(s, Cancel);
      t.task.pc.Ended? && t.strays == s.strays + [s.exec.stage] && IsWrite(t.strays[|s.strays|])
  {
  }

  // ----- a write that has yet to open the stream is abandoned -----

  lemma LeavesLoop(s: State, t: State) returns (u: State)
    requires LeadsTo(s, t) && !t.sink.Stdout? && t.task.pc.LoopHead? && t.queue.items == [] && t.exec == FRESH_EXECUTOR
    ensures LeadsTo(s, u)
    ensures u == t.(task := t.task.(running := false, pc := AwaitingClose), exec := Executor([], Closing, true, None))
  {
    hide LeadsTo;
    LeadsOn(s, t, ClearRunning);
    var t1 := Apply(t, ClearRunning);
    LeadsOn(s, t1, LoopTest);
    var t2 := Apply(t1, LoopTest);
    LeadsOn(s, t2, TakeOp);
    u := Apply(t2, TakeOp);
  }

  lemma Closes(s: State, t: State) returns (u: State)
    requires LeadsTo(s, t) && t.sink.Owned? && t.task.pc.AwaitingClose? && t.exec == Executor([], Closing, true, None)
    ensures LeadsTo(s, u) && u.sink == t.sink && u.strays == t.strays && u.task == t.task.(pc := ShuttingDown)
    ensures u.disk.stream == None && Quiescent(u.exec)
  {
    hide LeadsTo;
    LeadsOn(s, t, CloseStep);
    u := Apply(t, CloseStep);
    if u.exec.stage.Resetting? {
      LeadsOn(s, u, ResetStep);
      u := Apply(u, ResetStep);
    }
    LeadsOn(s, u, ResumeClose);
    u := Apply(u, ResumeClose);
  }

  /** Wherever a run meets it, the next worker can come to its end by itself, its close done, with the stream open. */
  lemma CutOpeningReopens(s: State) returns (t: State)
    requires s.sink.Owned? && CutOpening(s, Cancel)
    ensures LeadsTo(s, t) && t.task.pc.Ended? && !t.task.cancelled && t.disk.stream.Some?
  {
    hide LeadsTo;
    var k := |s.strays|;
    var t0 := Restarts(s);
    var t1 := LeavesLoop(s, t0);
    var t2 := Closes(s, t1);
    LeadsOn(s, t2, StrayStep(k, true));
    var t3 := Apply(t2, StrayStep(k, true));
    LeadsOn(s, t3, Shutdown);
    t := Apply(t3, Shutdown);
  }

  // ----- a busy thread is abandoned -----

  /** A stray write meets the stream that the next worker closes. */
  lemma CloseSpoils(s: State, t: State, k: nat) returns (u: State)
    requires LeadsTo(s, t) && t.sink.Owned? && t.task.pc.LoopHead? && t.queue.items == [] && t.exec == FRESH_EXECUTOR
    requires k < |t.strays| && t.strays[k].Writing? && t.disk.stream == Some(t.strays[k].handle)
    ensures LeadsTo(s, u) && |u.disk.spoiled| == |t.disk.spoiled| + 1
  {
    hide LeadsTo;
    var t1 := LeavesLoop(s, t);
    LeadsOn(s, t1, CloseStep);
    var t2 := Apply(t1, CloseStep);
    LeadsOn(s, t2, StrayStep(k, true));
    u := Apply(t2, StrayStep(k, true));
  }

  /** The next worker's write meets the stream that a stray closes, whichever half of the close is left. */
  lemma StrayCloseSpoils(s: State, t: State, r: LogRecord, k: nat) returns (u: State)
    requires LeadsTo(s, t) && t.sink.Owned? && t.task.pc.LoopHead? && t.task.running && t.queue.items == []
    requires t.exec == FRESH_EXECUTOR && k < |t.strays|
    requires t.strays[k].Closing? || (t.strays[k].Resetting? && t.disk.stream.Some? && t.disk.stream.value in t.disk.closed)
    ensures LeadsTo(s, u) && |u.disk.spoiled| == |t.disk.spoiled| + 1
  {
    hide LeadsTo;
    var t1 := BeginsWrite(s, t, r);
    LeadsOn(s, t1, OpenStep(true));
    var t2 := Apply(t1, OpenStep(true));
    LeadsOn(s, t2, StrayStep(k, true));
    var t3 := Apply(t2, StrayStep(k, true));
    LeadsOn(s, t3, WriteStep(true));
    u := Apply(t3, WriteStep(true));
  }

  /**
   * Wherever a run meets such a cancellation for the first time, it can go on to a write on a closed handle in the very
   * next cycle: an abandoned close meets that cycle's write, or an abandoned write that cycle's close.
   */
  lemma CutBusyCloseSpoils(acts: seq<Action>, r: LogRecord) returns (t: State)
    requires IsRun(Initial(Owned), acts) && Never(Initial(Owned), acts, CutBusyClose)
    requires CutBusyClose(Exec(Initial(Owned), acts), Cancel)
    ensures LeadsTo(Exec(Initial(Owned), acts), t) && |t.disk.spoiled| == 1
  {
    HandlesAlways(acts);
    var s := Exec(Initial(Owned), acts);
    hide LeadsTo, IsRun, Exec, Never;
    var k := |s.strays|;
    var t0 := Restarts(s);
    if IsClose(s.exec.stage) {
      t := StrayCloseSpoils(s, t0, r, k);
    } else if s.exec.stage.Writing? {
      t := CloseSpoils(s, t0, k);
    } else {
      LeadsOn(s, t0, StrayStep(k, true));
      t := CloseSpoils(s, Apply(t0, StrayStep(k, true)), k);
    }
  }

  // ----- and they happen -----

  lemma {:induction false} SinkStays(sink: Sink, acts: seq<Action>)
    requires IsRun(Initial(sink), acts)
    ensures Exec(Initial(sink), acts).sink == sink
  {
    hide IsRun, Exec, Enabled, Apply;
    if acts == [] {
      NoSteps(Initial(sink));
    } else {
      RunLast(Initial(sink), acts);
      SinkStays(sink, acts[..|acts| - 1]);
      ThreadFrame(Exec(Initial(sink), acts[..|acts| - 1]), acts[|acts| - 1]);
    }
  }

  /** A run grows by a step that cuts off no close. */
  lemma Extended(sink: Sink, acts: seq<Action>, a: Action) returns (more: seq<Action>)
    requires IsRun(Initial(sink), acts) && Never(Initial(sink), acts, CutBusyClose)
    requires Enabled(Exec(Initial(sink), acts), a) && (a.Cancel? ==> !Exec(Initial(sink), acts).task.pc.AwaitingClose?)
    ensures IsRun(Initial(sink), more) && Never(Initial(sink), more, CutBusyClose)
    ensures Exec(Initial(sink), more) == Apply(Exec(Initial(sink), acts), a)
  {
    hide IsRun, Exec, Never, Enabled, Apply;
    NeverMore(Initial(sink), acts, a, CutBusyClose);
    more := acts + [a];
  }

  lemma TakesOne(sink: Sink, r: LogRecord) returns (acts: seq<Action>)
    ensures IsRun(Initial(sink), acts) && Never(Initial(sink), acts, CutBusyClose)
    ensures var s := Exec(Initial(sink), acts); s.task.pc.Getting? && s.queue.items == [r] && s.exec == FRESH_EXECUTOR
  {
    hide IsRun, Exec, Never;
    acts := [];
    NeverAtFirst(Initial(sink), CutBusyClose);
    NoSteps(Initial(sink));
    acts := Extended(sink, acts, Start);
    acts := Extended(sink, acts, Put(r));
    acts := Extended(sink, acts, LoopTest);
  }

  /** A worker cancelled as its write begins, and cancelled again. */
  lemma CutWriteHappens(sink: Sink, r: LogRecord) returns (acts: seq<Action>)
    requires !sink.Stdout?
    ensures IsRun(Initial(sink), acts) && Never(Initial(sink), acts, CutBusyClose)
    ensures var s := Exec(Initial(sink), acts); Enabled(s, Cancel) && CutLiveWrite(s, Cancel) && CutOpening(s, Cancel)
  {
    hide IsRun, Exec, Never;
    acts := TakesOne(sink, r);
    SinkStays(sink, acts);
    acts := Extended(sink, acts, GetRecord(Text));
    acts := Extended(sink, acts, TakeOp);
    acts := Extended(sink, acts, Cancel);
  }

  /** A worker that was told to stop with nothing to do, cancelled as its close begins. */
  lemma CutRunningCloseHappens() returns (acts: seq<Action>)
    ensures IsRun(Initial(Owned), acts) && Never(Initial(Owned), acts, CutBusyClose)
    ensures var s := Exec(Initial(Owned), acts); Enabled(s, Cancel) && CutBusyClose(s, Cancel) && IsClose(s.exec.stage)
  {
    hide IsRun, Exec, Never;
    acts := [];
    NeverAtFirst(Initial(Owned), CutBusyClose);
    NoSteps(Initial(Owned));
    acts := Extended(Owned, acts, Start);
    acts := Extended(Owned, acts, LoopTest);
    acts := Extended(Owned, acts, ClearRunning);
    acts := Extended(Owned, acts, GetTimeout);
    acts := Extended(Owned, acts, LoopTest);
    acts := Extended(Owned, acts, TakeOp);
  }

  function IdleWith(r: LogRecord): State {
    State(Owned, Task(LoopHead, true, false, 1), FRESH_EXECUTOR, [], Disk(Some(1), 1, {}, [Entry(r, 1, 1)], []), Queue([], 0),
          History([r], [r], [r], [P.Ack(r, P.Delivered)], 0))
  }

  /** A first cycle that writes one record. */
  lemma WritesOne(r: LogRecord) returns (acts: seq<Action>)
    ensures IsRun(Initial(Owned), acts) && Never(Initial(Owned), acts, CutBusyClose)
    ensures Exec(Initial(Owned), acts) == IdleWith(r)
  {
    hide IsRun, Exec, Never;
    acts := [];
    NeverAtFirst(Initial(Owned), CutBusyClose);
    NoSteps(Initial(Owned));
    acts := Extended(Owned, acts, Start);
    acts := Extended(Owned, acts, Put(r));
    acts := Extended(Owned, acts, LoopTest);
    acts := Extended(Owned, acts, GetRecord(Text));
    acts := WritesOut(acts, r);
  }

  lemma WritesOut(before: seq<Action>, r: LogRecord) returns (acts: seq<Action>)
    requires IsRun(Initial(Owned), before) && Never(Initial(Owned), before, CutBusyClose)
    requires Exec(Initial(Owned), before)
      == State(Owned, Task(AwaitingWrite(r), true, false, 1), Executor([Write(r, 1)], Idle, false, None), [],
               Disk(None, 0, {}, [], []), Queue([], 1), History([r], [r], [r], [], 0))
    ensures IsRun(Initial(Owned), acts) && Never(Initial(Owned), acts, CutBusyClose)
    ensures Exec(Initial(Owned), acts) == IdleWith(r)
  {
    hide IsRun, Exec, Never;
    acts := Extended(Owned, before, TakeOp);
    acts := Extended(Owned, acts, OpenStep(true));
    acts := Extended(Owned, acts, WriteStep(true));
    acts := Extended(Owned, acts, ResumeWrite);
  }

  /** Cancelled while its close is still queued, a worker drops the close and leaves the file it wrote to open. */
  lemma QueuedCloseIsDropped(r: LogRecord) returns (acts: seq<Action>)
    ensures IsRun(Initial(Owned), acts)
    ensures var t := Exec(Initial(Owned), acts);
      t.task.pc.Ended? && t.disk.stream == Some(1) && t.disk.closed == {} && t.strays == [] && Quiescent(t.exec)
  {
    hide IsRun, Exec, Never;
    var before := WritesOne(r);
    before := Extended(Owned, before, ClearRunning);
    before := Extended(Owned, before, LoopTest);
    RunSnoc(Initial(Owned), before, Cancel);
    acts := before + [Cancel];
  }
}
