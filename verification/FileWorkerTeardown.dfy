/**
 * What a cancellation of the worker's last await costs.  That await is the close of the stream, behind which only the
 * shutdown of the executor follows; the cancellation, the worker's first or second, drops a close that is still queued and
 * abandons what the thread is at.  Each promise of the worker is proved for all runs without the cancellations that break
 * it, and each of those cancellations is shown to break it.
 */
module FileWorkerTeardown {
  import opened Records
  import opened Sequences
  import opened FileWorker
  import opened FileWorkerTheorems

  // ----- the cancellations -----

  /** The cancellation arrives at the worker's final `executor.run(self._close_stream)`, before that has come back. */
  predicate CutClose(s: State, a: Action) {
    a.Cancel? && s.task.pc.AwaitingClose? && s.exec.result == None
  }

  /** ... while the thread runs an operation: the close, or the write of a worker cancelled before. */
  predicate CutBusyClose(s: State, a: Action) {
    CutClose(s, a) && !s.exec.stage.Idle?
  }

  /** ... namely a write. */
  predicate CutBehindWrite(s: State, a: Action) {
    CutClose(s, a) && IsWrite(s.exec.stage)
  }

  /** ... to a handle not closed in the meantime. */
  predicate CutLiveWrite(s: State, a: Action) {
    CutBehindWrite(s, a) && (s.exec.stage.Writing? ==> s.exec.stage.handle !in s.disk.closed)
  }

  /** ... or one that has yet to open the stream. */
  predicate CutOpening(s: State, a: Action) {
    CutClose(s, a) && s.exec.stage.Opening?
  }

  ghost predicate Never(s: State, acts: seq<Action>, bad: (State, Action) -> bool)
    requires IsRun(s, acts)
  {
    acts == [] ||
    (IsRun(s, acts[..|acts| - 1]) && Never(s, acts[..|acts| - 1], bad) &&
     !bad(Exec(s, acts[..|acts| - 1]), acts[|acts| - 1]))
  }

  lemma NeverAtFirst(s: State, bad: (State, Action) -> bool)
    ensures IsRun(s, []) && Never(s, [], bad)
  {
    NoSteps(s);
  }

  lemma NeverLast(s: State, acts: seq<Action>, bad: (State, Action) -> bool)
    requires IsRun(s, acts) && Never(s, acts, bad) && acts != []
    ensures var before := acts[..|acts| - 1];
      IsRun(s, before) && Never(s, before, bad) && !bad(Exec(s, before), acts[|acts| - 1])
  {
    hide Enabled, Apply;
  }

  lemma NeverMore(s: State, acts: seq<Action>, a: Action, bad: (State, Action) -> bool)
    requires IsRun(s, acts) && Never(s, acts, bad) && Enabled(Exec(s, acts), a) && !bad(Exec(s, acts), a)
    ensures IsRun(s, acts + [a]) && Never(s, acts + [a], bad) && Exec(s, acts + [a]) == Apply(Exec(s, acts), a)
  {
    hide Enabled, Apply;
    RunSnoc(s, acts, a);
    assert (acts + [a])[..|acts|] == acts;
  }

  lemma ReachesExecOk(sink: Sink, acts: seq<Action>)
    requires IsRun(Initial(sink), acts)
    ensures var t := Exec(Initial(sink), acts); ExecOk(t.sink, t.task, t.exec)
  {
    hide IsRun, Exec, ExecOk;
    RunKeepsInv(sink, acts);
  }

  // ----- order: unless a live write was abandoned -----

  /** Texts come in the order of the records dequeued, and so the cycles they belong to; no stray will add to them. */
  ghost predicate OrderOk(s: State) {
    TextsOk(s.exec, s.disk, s.past) && CyclesOk(s.task, s.disk) && SpentOk(s.strays, s.disk)
  }

  ghost predicate TextsOk(e: Executor, d: Disk, h: History) {
    Subsequence(Texts(d.written) + InExecutor(e), h.dequeued)
  }

  ghost predicate CyclesOk(t: Task, d: Disk) {
    && (forall i | 0 <= i < |d.written| :: d.written[i].cycle <= t.cycle)
    && (forall i, j | 0 <= i < j < |d.written| :: d.written[i].cycle <= d.written[j].cycle)
  }

  /** A stray write can only meet a closed handle. */
  ghost predicate SpentOk(strays: seq<Stage>, d: Disk) {
    forall k | 0 <= k < |strays| :: !strays[k].Opening? && (strays[k].Writing? ==> strays[k].handle in d.closed)
  }

  /** The write in the executor is dropped or has failed. */
  lemma WriteGone(e: Executor, d: Disk, h: History)
    requires TextsOk(e, d, h)
    ensures Subsequence(Texts(d.written), h.dequeued)
  {
    hide Subsequence, Texts;
    if InExecutor(e) != [] {
      SubsequenceInit(Texts(d.written), InExecutor(e)[0], h.dequeued);
    } else {
      assert Texts(d.written) + [] == Texts(d.written);
    }
  }

  lemma TextsDequeued(s: State, rendering: Rendering)
    requires TextsOk(s.exec, s.disk, s.past) && ExecOk(s.sink, s.task, s.exec) && s.task.pc.Getting? && s.queue.items != []
    ensures var t := Dequeue(s, rendering); TextsOk(t.exec, t.disk, t.past)
  {
    hide Subsequence, Texts;
    WriteGone(s.exec, s.disk, s.past);
    SubsequenceSnoc(Texts(s.disk.written), s.past.dequeued, s.queue.items[0]);
    assert Texts(s.disk.written) + [] == Texts(s.disk.written);
  }

  lemma TextsWritten(s: State, ok: bool)
    requires TextsOk(s.exec, s.disk, s.past) && ExecOk(s.sink, s.task, s.exec) && s.exec.stage.Writing?
    ensures var t := AfterWrite(s, ok); TextsOk(t.exec, t.disk, t.past)
  {
    hide Subsequence, Texts;
    var t := AfterWrite(s, ok);
    WriteGone(s.exec, s.disk, s.past);
    TextsSnoc(s.disk.written, EntryOf(s.exec.stage));
    assert Texts(t.disk.written) + [] == Texts(t.disk.written);
  }

  lemma TextsElsewhere(s: State, a: Action)
    requires TextsOk(s.exec, s.disk, s.past) && ExecOk(s.sink, s.task, s.exec) && SpentOk(s.strays, s.disk)
    requires Enabled(s, a) && !a.GetRecord? && !a.WriteStep?
    ensures var t := Apply(s, a); TextsOk(t.exec, t.disk, t.past)
  {
    hide Subsequence, Texts, TextsOk;
    WriteGone(s.exec, s.disk, s.past);
    var t := Apply(s, a);
    ThreadFrame(s, a);
    assert t.disk.written == s.disk.written && t.past.dequeued == s.past.dequeued;
    assert InExecutor(t.exec) == [] || InExecutor(t.exec) == InExecutor(s.exec);
    hide Apply, Enabled, ExecOk, SpentOk, InExecutor;
    TextsLater(s.exec, s.disk, s.past, t.exec, t.disk, t.past);
  }

  lemma TextsLater(e: Executor, d: Disk, h: History, e': Executor, d': Disk, h': History)
    requires TextsOk(e, d, h) && d'.written == d.written && h'.dequeued == h.dequeued
    requires InExecutor(e') == [] || InExecutor(e') == InExecutor(e)
    ensures TextsOk(e', d', h')
  {
    hide Subsequence, Texts, InExecutor;
    WriteGone(e, d, h);
    assert Texts(d.written) + [] == Texts(d.written);
  }

  lemma TextsKept(s: State, a: Action)
    requires TextsOk(s.exec, s.disk, s.past) && ExecOk(s.sink, s.task, s.exec) && SpentOk(s.strays, s.disk) && Enabled(s, a)
    ensures var t := Apply(s, a); TextsOk(t.exec, t.disk, t.past)
  {
    hide TextsOk, ExecOk, SpentOk;
    if a.GetRecord? {
      TextsDequeued(s, a.rendering);
    } else if a.WriteStep? {
      TextsWritten(s, a.ok);
    } else {
      TextsElsewhere(s, a);
    }
  }

  lemma CyclesKept(s: State, a: Action)
    requires CyclesOk(s.task, s.disk) && ExecOk(s.sink, s.task, s.exec) && SpentOk(s.strays, s.disk) && Enabled(s, a)
    ensures var t := Apply(s, a); CyclesOk(t.task, t.disk)
  {
    hide Target, Finish;
    ThreadFrame(s, a);
    if a.WriteStep? {
      assert s.exec.stage.cycle == s.task.cycle;
    }
  }

  lemma SpentKept(s: State, a: Action)
    requires SpentOk(s.strays, s.disk) && ExecOk(s.sink, s.task, s.exec) && Enabled(s, a) && !CutLiveWrite(s, a)
    ensures var t := Apply(s, a); SpentOk(t.strays, t.disk)
  {
    ThreadFrame(s, a);
    hide Finish, Target, Acknowledge;
  }

  lemma OrderStep(s: State, a: Action)
    requires OrderOk(s) && Inv(s) && Enabled(s, a) && !CutLiveWrite(s, a)
    ensures OrderOk(Apply(s, a))
  {
    hide TextsOk, CyclesOk, SpentOk, ExecOk, Enabled, Apply, CutLiveWrite;
    TextsKept(s, a);
    CyclesKept(s, a);
    SpentKept(s, a);
  }

  lemma OrderAtFirst(sink: Sink)
    ensures OrderOk(Initial(sink))
  {
  }

  lemma {:induction false} OrderAlways(sink: Sink, acts: seq<Action>)
    requires IsRun(Initial(sink), acts) && Never(Initial(sink), acts, CutLiveWrite)
    ensures OrderOk(Exec(Initial(sink), acts))
  {
    hide IsRun, Exec, Never, OrderOk, Inv, Enabled, Apply, CutLiveWrite;
    if acts == [] {
      NoSteps(Initial(sink));
      OrderAtFirst(sink);
    } else {
      var before := acts[..|acts| - 1];
      RunLast(Initial(sink), acts);
      NeverLast(Initial(sink), acts, CutLiveWrite);
      OrderAlways(sink, before);
      RunKeepsInv(sink, before);
      OrderStep(Exec(Initial(sink), before), acts[|acts| - 1]);
    }
  }

  /** The texts in the sink are those of some of the records dequeued, in the same order. */
  lemma WrittenInOrder(sink: Sink, acts: seq<Action>)
    requires IsRun(Initial(sink), acts) && Never(Initial(sink), acts, CutLiveWrite)
    ensures var t := Exec(Initial(sink), acts); Subsequence(Texts(t.disk.written), t.past.dequeued)
  {
    OrderAlways(sink, acts);
    var t := Exec(Initial(sink), acts);
    WriteGone(t.exec, t.disk, t.past);
  }

  /** All writes of one start cycle precede all writes of the next. */
  lemma CyclesInOrder(sink: Sink, acts: seq<Action>, i: nat, j: nat)
    requires IsRun(Initial(sink), acts) && Never(Initial(sink), acts, CutLiveWrite)
    requires i < j < |Exec(Initial(sink), acts).disk.written|
    ensures var t := Exec(Initial(sink), acts); t.disk.written[i].cycle <= t.disk.written[j].cycle <= t.task.cycle
  {
    OrderAlways(sink, acts);
  }

  // ----- no write left over: unless the close was cut behind one -----

  ghost predicate NoStrayWrite(s: State) {
    forall k | 0 <= k < |s.strays| :: !IsWrite(s.strays[k])
  }

  lemma NoStrayWriteStep(s: State, a: Action)
    requires NoStrayWrite(s) && ExecOk(s.sink, s.task, s.exec) && Enabled(s, a) && !CutBehindWrite(s, a)
    ensures NoStrayWrite(Apply(s, a))
  {
    ThreadFrame(s, a);
    hide Finish, Acknowledge, Target, StrayOnDisk;
  }

  lemma {:induction false} NoStrayWriteAlways(sink: Sink, acts: seq<Action>)
    requires IsRun(Initial(sink), acts) && Never(Initial(sink), acts, CutBehindWrite)
    ensures NoStrayWrite(Exec(Initial(sink), acts))
  {
    hide IsRun, Exec, Never, NoStrayWrite, ExecOk, Enabled, Apply, CutBehindWrite;
    if acts == [] {
      NoSteps(Initial(sink));
      assert NoStrayWrite(Initial(sink)) by { NoStraysAtFirst(sink); }
    } else {
      var before := acts[..|acts| - 1];
      RunLast(Initial(sink), acts);
      NeverLast(Initial(sink), acts, CutBehindWrite);
      NoStrayWriteAlways(sink, before);
      ReachesExecOk(sink, before);
      NoStrayWriteStep(Exec(Initial(sink), before), acts[|acts| - 1]);
    }
  }

  lemma NoStraysAtFirst(sink: Sink)
    ensures NoStrayWrite(Initial(sink)) && HandlesOk(Initial(Owned)) && ReleaseOk(Initial(Owned)) && ReleasedOk(Initial(Owned))
  {
  }

  /** Between two cycles nothing that could still write is left on any executor, not even on an abandoned one. */
  lemma NoWriteOutlivesItsWorker(sink: Sink, acts: seq<Action>)
    requires IsRun(Initial(sink), acts) && Never(Initial(sink), acts, CutBehindWrite)
    requires var t := Exec(Initial(sink), acts); t.task.pc.Ended? || t.task.pc.NotStarted?
    ensures var t := Exec(Initial(sink), acts);
      Quiescent(t.exec) && InExecutor(t.exec) == [] && forall k | 0 <= k < |t.strays| :: !IsWrite(t.strays[k])
  {
    NoStrayWriteAlways(sink, acts);
    RunKeepsInv(sink, acts);
    hide IsRun, Exec, Never;
    EndedQuiet(Exec(Initial(sink), acts));
  }

  lemma EndedQuiet(s: State)
    requires Inv(s) && (s.task.pc.Ended? || s.task.pc.NotStarted?)
    ensures Quiescent(s.exec) && InExecutor(s.exec) == []
  {
    hide RecordsOk, OnceOk, DeliveredOk, SinkOk;
  }

  // ----- the stream is released: unless a write not yet at its opening was abandoned -----

  /** Whoever could still open the stream is done before the executor is shut down. */
  ghost predicate ReleaseOk(s: State) {
    && s.sink.Owned? && (forall k | 0 <= k < |s.strays| :: !s.strays[k].Opening?)
    && (s.task.pc.ShuttingDown? || (s.task.pc.AwaitingClose? && s.exec.result.Some?) ==> s.disk.stream == None)
  }

  lemma ReleaseThreadKept(s: State, a: Action)
    requires ReleaseOk(s) && ExecOk(s.sink, s.task, s.exec) && OfThread(a) && Enabled(s, a)
    ensures ReleaseOk(Apply(s, a))
  {
    ThreadFrame(s, a);
    hide Wrote;
  }

  lemma ReleaseCoroutineKept(s: State, a: Action)
    requires ReleaseOk(s) && ExecOk(s.sink, s.task, s.exec) && !OfThread(a) && Enabled(s, a) && !CutOpening(s, a)
    ensures ReleaseOk(Apply(s, a))
  {
    ThreadFrame(s, a);
    hide Finish, Acknowledge, Target, StrayOnDisk;
  }

  lemma {:induction false} ReleaseAlways(acts: seq<Action>)
    requires IsRun(Initial(Owned), acts) && Never(Initial(Owned), acts, CutOpening)
    ensures ReleaseOk(Exec(Initial(Owned), acts))
  {
    hide IsRun, Exec, Never, ReleaseOk, ExecOk, Enabled, Apply, CutOpening;
    if acts == [] {
      NoSteps(Initial(Owned));
      NoStraysAtFirst(Owned);
    } else {
      var before, a := acts[..|acts| - 1], acts[|acts| - 1];
      RunLast(Initial(Owned), acts);
      NeverLast(Initial(Owned), acts, CutOpening);
      ReleaseAlways(before);
      ReachesExecOk(Owned, before);
      if OfThread(a) {
        ReleaseThreadKept(Exec(Initial(Owned), before), a);
      } else {
        ReleaseCoroutineKept(Exec(Initial(Owned), before), a);
      }
    }
  }

  /** The step that ends the worker leaves `_stream` at None unless it cuts off the close of an open stream. */
  lemma EndedWithoutStream(acts: seq<Action>, a: Action)
    requires IsRun(Initial(Owned), acts) && Never(Initial(Owned), acts, CutOpening)
    requires var s := Exec(Initial(Owned), acts); Enabled(s, a) && !s.task.pc.Ended? && Apply(s, a).task.pc.Ended?
    ensures var s := Exec(Initial(Owned), acts);
      Apply(s, a).disk.stream == None <==> !(CutClose(s, a) && s.disk.stream.Some?)
  {
    ReleaseAlways(acts);
    EndsReleased(Exec(Initial(Owned), acts), a);
  }

  lemma EndsReleased(s: State, a: Action)
    requires ReleaseOk(s) && Enabled(s, a) && !s.task.pc.Ended? && Apply(s, a).task.pc.Ended?
    ensures Apply(s, a).disk.stream == None <==> !(CutClose(s, a) && s.disk.stream.Some?)
  {
    ThreadFrame(s, a);
  }

  // ----- no write after close: unless the close was cut while the thread was busy -----

  /** Without strays: the stream is the newest handle and open, every older handle is closed. */
  ghost predicate HandlesOk(s: State) {
    var e, d := s.exec, s.disk;
    && s.sink.Owned?
    && (forall k | 0 <= k < |s.strays| :: s.strays[k].Idle?)
    && d.spoiled == []
    && (d.stream.Some? ==> d.stream.value == d.openCount && (d.openCount in d.closed <==> e.stage.Resetting?))
    && (forall h | 1 <= h <= d.openCount :: h in d.closed || d.stream == Some(h))
    && (e.stage.Writing? ==> d.stream == Some(e.stage.handle))
    && (e.stage.Resetting? ==> d.stream.Some?)
  }

  lemma HandlesThreadKept(s: State, a: Action)
    requires HandlesOk(s) && SinkOk(s.sink, s.exec, s.strays, s.disk) && OfThread(a) && Enabled(s, a)
    ensures HandlesOk(Apply(s, a))
  {
    hide IsResetting;
  }

  lemma HandlesCoroutineKept(s: State, a: Action)
    requires HandlesOk(s) && !OfThread(a) && Enabled(s, a)
    requires ExecOk(s.sink, s.task, s.exec) && !CutBusyClose(s, a)
    ensures HandlesOk(Apply(s, a))
  {
    ThreadFrame(s, a);
    hide Acknowledge;
  }

  lemma HandlesStep(s: State, a: Action)
    requires HandlesOk(s) && Enabled(s, a) && Inv(s) && !CutBusyClose(s, a)
    ensures HandlesOk(Apply(s, a))
  {
    hide HandlesOk, ExecOk, SinkOk, Enabled, Apply, CutBusyClose;
    if OfThread(a) {
      HandlesThreadKept(s, a);
    } else {
      HandlesCoroutineKept(s, a);
    }
  }

  lemma {:induction false} HandlesAlways(acts: seq<Action>)
    requires IsRun(Initial(Owned), acts) && Never(Initial(Owned), acts, CutBusyClose)
    ensures HandlesOk(Exec(Initial(Owned), acts))
  {
    hide IsRun, Exec, Never, HandlesOk, Inv, Enabled, Apply, CutBusyClose;
    if acts == [] {
      NoSteps(Initial(Owned));
      NoStraysAtFirst(Owned);
    } else {
      var before := acts[..|acts| - 1];
      RunLast(Initial(Owned), acts);
      NeverLast(Initial(Owned), acts, CutBusyClose);
      HandlesAlways(before);
      RunKeepsInv(Owned, before);
      HandlesStep(Exec(Initial(Owned), before), acts[|acts| - 1]);
    }
  }

  /**
   * No write after close.  In every run -- any interleaving with the executor's thread, cancellations at every other
   * await and of a close still queued, any number of restarts -- no write is attempted on a closed handle.
   */
  lemma NoWriteAfterClose(acts: seq<Action>)
    requires IsRun(Initial(Owned), acts) && Never(Initial(Owned), acts, CutBusyClose)
    ensures Exec(Initial(Owned), acts).disk.spoiled == []
  {
    HandlesAlways(acts);
  }

  // ----- every handle closed: unless a close was cut off -----

  ghost predicate ReleasedOk(s: State) {
    HandlesOk(s) && ReleaseOk(s) && (s.task.pc.Ended? || s.task.pc.NotStarted? ==> s.disk.stream == None)
  }

  lemma ReleasedStep(s: State, a: Action)
    requires ReleasedOk(s) && Enabled(s, a) && Inv(s) && !CutClose(s, a)
    ensures ReleasedOk(Apply(s, a))
  {
    HandlesStep(s, a);
    assert ExecOk(s.sink, s.task, s.exec);
    hide ExecOk, Inv;
    if OfThread(a) {
      ReleaseThreadKept(s, a);
    } else {
      ReleaseCoroutineKept(s, a);
    }
    ThreadFrame(s, a);
    ReleasedStays(s, a);
    hide HandlesOk, ReleaseOk;
  }

  lemma ReleasedStays(s: State, a: Action)
    requires ReleasedOk(s) && Enabled(s, a) && ExecOk(s.sink, s.task, s.exec) && !CutClose(s, a)
    ensures var t := Apply(s, a); t.task.pc.Ended? || t.task.pc.NotStarted? ==> t.disk.stream == None
  {
    ThreadFrame(s, a);
    hide HandlesOk;
  }

  /** When no worker was cancelled inside its close, an ended worker has closed every handle it ever opened. */
  lemma EveryHandleClosed(acts: seq<Action>)
    requires IsRun(Initial(Owned), acts) && Never(Initial(Owned), acts, CutClose)
    ensures var t := Exec(Initial(Owned), acts);
      t.task.pc.Ended? ==> t.disk.stream == None && forall h | 1 <= h <= t.disk.openCount :: h in t.disk.closed
  {
    ReleasedAlways(acts);
  }

  lemma {:induction false} ReleasedAlways(acts: seq<Action>)
    requires IsRun(Initial(Owned), acts) && Never(Initial(Owned), acts, CutClose)
    ensures ReleasedOk(Exec(Initial(Owned), acts))
  {
    hide IsRun, Exec, Never, ReleasedOk, Inv, Enabled, Apply, CutClose;
    if acts == [] {
      NoSteps(Initial(Owned));
      NoStraysAtFirst(Owned);
    } else {
      var before := acts[..|acts| - 1];
      RunLast(Initial(Owned), acts);
      NeverLast(Initial(Owned), acts, CutClose);
      ReleasedAlways(before);
      RunKeepsInv(Owned, before);
      ReleasedStep(Exec(Initial(Owned), before), acts[|acts| - 1]);
    }
  }
}
