/** What the file and console workers keep over every interleaving with their executor, cancellation and restart. */
module FileWorkerTheorems {
  import opened Records
  import opened Sequences
  import opened FileWorker
  import P = Pipeline
  import I = PipelineInvariant
  import S = PipelineSteps

  function InHand(pc: Pc): seq<LogRecord> {
    if pc.AwaitingWrite? then [pc.record] else []
  }

  predicate IsWrite(stage: Stage) {
    stage.Opening? || stage.Writing?
  }

  predicate IsClose(stage: Stage) {
    stage.Closing? || stage.Resetting?
  }

  /** The record of a write that has begun. */
  function InStage(stage: Stage): seq<LogRecord> {
    if IsWrite(stage) then [stage.record] else []
  }

  /** The record whose write the executor has not finished yet. */
  function InExecutor(e: Executor): seq<LogRecord> {
    if IsWrite(e.stage) then [e.stage.record]
    else if e.pending != [] && e.pending[0].Write? then [e.pending[0].record]
    else []
  }

  /** Those of the writes that abandoned executors are still at. */
  function InStrays(strays: seq<Stage>): multiset<LogRecord> {
    if strays == [] then multiset{} else InStrays(strays[..|strays| - 1]) + multiset(InStage(strays[|strays| - 1]))
  }

  function Texts(written: seq<Entry>): seq<LogRecord> {
    if written == [] then [] else Texts(written[..|written| - 1]) + [written[|written| - 1].record]
  }

  /** The awaited operation is queued, running, or has come back. */
  predicate Queued(e: Executor, op: Op) {
    e.pending == [op] && e.result == None && !e.wanted
  }

  predicate CameBack(e: Executor) {
    Quiescent(e) && e.result.Some? && !e.wanted
  }

  ghost predicate ExecOk(sink: Sink, t: Task, e: Executor) {
    match t.pc
    case AwaitingWrite(r) =>
      || (Queued(e, Write(r, t.cycle)) && e.stage.Idle?)
      || (e.pending == [] && IsWrite(e.stage) && e.stage.record == r && e.stage.cycle == t.cycle && e.wanted && e.result == None)
      || CameBack(e)
    case AwaitingClose =>
      !sink.Stdout? &&
      (|| (Queued(e, Close) && (e.stage.Idle? || LeftOver(t, e)))
       || (e.pending == [] && IsClose(e.stage) && e.wanted && e.result == None)
       || CameBack(e))
    case ShuttingDown => e.pending == [] && !e.wanted && (e.stage.Idle? || (sink.Stdout? && LeftOver(t, e)))
    case _ => Quiescent(e) && !e.wanted
  }

  /** The write a cancelled worker left running. */
  predicate LeftOver(t: Task, e: Executor) {
    t.cancelled && IsWrite(e.stage) && e.stage.cycle == t.cycle && !e.wanted
  }

  /** A worker that ends by itself has nothing left to do; a cancelled one is in its teardown. */
  ghost predicate ExitOk(t: Task, q: Queue) {
    && (t.pc.AwaitingClose? || t.pc.ShuttingDown? || t.pc.Ended? ==> !t.cancelled ==> !t.running && q.items == [])
    && (t.cancelled ==> t.pc.AwaitingClose? || t.pc.ShuttingDown? || t.pc.Ended?)
  }

  ghost predicate RecordsOk(pc: Pc, q: Queue, h: History) {
    && q.unfinished == |q.items| + |InHand(pc)|
    && h.puts == h.removed + q.items
    && Subsequence(h.dequeued, h.removed)
    && I.Acked(h.acks) + InHand(pc) == h.dequeued
    && h.cycleStart <= |h.acks|
  }

  /** The record whose write has come back as successful and is not acknowledged yet. */
  function Confirmed(pc: Pc, e: Executor): seq<LogRecord> {
    if pc.AwaitingWrite? && e.result == Some(true) then [pc.record] else []
  }

  /** No record is written twice, or still being written after it was. */
  ghost predicate OnceOk(e: Executor, strays: seq<Stage>, d: Disk, h: History) {
    Underway(e, strays, d) <= multiset(h.dequeued)
  }

  function Underway(e: Executor, strays: seq<Stage>, d: Disk): multiset<LogRecord> {
    multiset(Texts(d.written)) + multiset(InExecutor(e)) + InStrays(strays)
  }

  ghost predicate DeliveredOk(pc: Pc, e: Executor, d: Disk, h: History) {
    Subsequence(I.DeliveredOf(h.acks) + Confirmed(pc, e), Texts(d.written))
  }

  predicate IsResetting(strays: seq<Stage>) {
    exists k | 0 <= k < |strays| :: strays[k].Resetting?
  }

  /**
   * An owned stream is one of the handles opened, and closed only while the close is not over; a sink of the host's is
   * never opened or closed.
   */
  ghost predicate SinkOk(sink: Sink, e: Executor, strays: seq<Stage>, d: Disk) {
    if sink.Owned? then
      && (d.stream.Some? ==> 1 <= d.stream.value <= d.openCount)
      && (forall h | h in d.closed :: 1 <= h <= d.openCount)
      && (d.stream.Some? && d.stream.value in d.closed ==> e.stage.Resetting? || IsResetting(strays))
    else
      && d.openCount == 0 && d.closed == {} && d.spoiled == []
      && d.stream == (if sink.Injected? then Some(0) else None)
      && OnHostFile(e.stage) && (forall k | 0 <= k < |strays| :: OnHostFile(strays[k]))
      && (forall i | 0 <= i < |d.written| :: d.written[i].handle == 0)
  }

  predicate OnHostFile(stage: Stage) {
    !stage.Resetting? && (stage.Writing? ==> stage.handle == 0)
  }

  ghost predicate Inv(s: State) {
    && ExecOk(s.sink, s.task, s.exec)
    && ExitOk(s.task, s.queue)
    && RecordsOk(s.task.pc, s.queue, s.past)
    && OnceOk(s.exec, s.strays, s.disk, s.past)
    && DeliveredOk(s.task.pc, s.exec, s.disk, s.past)
    && SinkOk(s.sink, s.exec, s.strays, s.disk)
  }

  lemma TextsSnoc(written: seq<Entry>, e: Entry)
    ensures Texts(written + [e]) == Texts(written) + [e.record]
  {
    assert (written + [e])[..|written|] == written;
  }

  lemma DeliveredSnoc(acks: seq<P.Ack>, a: P.Ack)
    ensures I.DeliveredOf(acks + [a]) == I.DeliveredOf(acks) + (if a.outcome == P.Delivered then [a.record] else [])
  {
    assert (acks + [a])[..|acks|] == acks;
  }

  // ----- every step, part by part -----

  predicate OfThread(a: Action) {
    a.TakeOp? || a.OpenStep? || a.WriteStep? || a.CloseStep? || a.ResetStep? || a.StrayStep?
  }

  /** The executor's threads change nothing of the coroutine's, and the coroutine nothing on the disk. */
  lemma ThreadFrame(s: State, a: Action)
    requires Enabled(s, a)
    ensures var t := Apply(s, a);
      if OfThread(a) then t == s.(exec := t.exec, strays := t.strays, disk := t.disk)
      else t.disk == s.disk && t.sink == s.sink
    ensures Apply(s, a).sink == s.sink
  {
    hide Open, Target, Finish;
  }

  lemma ExecThreadKept(s: State, a: Action)
    requires ExecOk(s.sink, s.task, s.exec) && OfThread(a) && Enabled(s, a)
    ensures var t := Apply(s, a); ExecOk(t.sink, t.task, t.exec)
  {
    hide Open, Target, CloseHandle, HasStream;
  }

  lemma ExecCoroutineKept(s: State, a: Action)
    requires ExecOk(s.sink, s.task, s.exec) && ExitOk(s.task, s.queue) && !OfThread(a) && Enabled(s, a)
    ensures var t := Apply(s, a); ExecOk(t.sink, t.task, t.exec)
  {
  }

  lemma ExitKept(s: State, a: Action)
    requires ExitOk(s.task, s.queue) && Enabled(s, a)
    ensures var t := Apply(s, a); ExitOk(t.task, t.queue)
  {
    if OfThread(a) {
      ThreadFrame(s, a);
    } else {
      hide Submit, Withdraw;
    }
  }

  // ----- records -----

  lemma AckedOk(pc: Pc, after: Pc, q: Queue, h: History, h': History, outcome: P.Outcome)
    requires RecordsOk(pc, q, h) && InHand(pc) != [] && InHand(after) == []
    requires h' == h.(acks := h.acks + [P.Ack(pc.record, outcome)])
    ensures RecordsOk(after, q.(unfinished := q.unfinished - 1), h')
  {
    S.AckedSnoc(h.acks, P.Ack(pc.record, outcome));
  }

  lemma DequeuedOk(s: State, rendering: Rendering)
    requires RecordsOk(s.task.pc, s.queue, s.past) && s.task.pc.Getting? && s.queue.items != []
    ensures var t := Dequeue(s, rendering); RecordsOk(t.task.pc, t.queue, t.past)
  {
    hide Subsequence, I.Acked, Submit;
    var r := s.queue.items[0];
    assert s.queue.items == [r] + s.queue.items[1..];
    ConcatAssoc(s.past.removed, [r], s.queue.items[1..]);
    SubsequenceSnoc(s.past.dequeued, s.past.removed, r);
    assert I.Acked(s.past.acks) + [] == I.Acked(s.past.acks);
    var t := Dequeue(s, rendering);
    if !rendering.Text? {
      S.AckedSnoc(s.past.acks, t.past.acks[|s.past.acks|]);
    }
  }

  lemma DiscardedOk(s: State)
    requires RecordsOk(s.task.pc, s.queue, s.past) && Enabled(s, Discard)
    ensures var t := Apply(s, Discard); RecordsOk(t.task.pc, t.queue, t.past)
  {
    var r := s.queue.items[0];
    assert s.queue.items == [r] + s.queue.items[1..];
    ConcatAssoc(s.past.removed, [r], s.queue.items[1..]);
    SubsequenceSnoc(s.past.dequeued, s.past.removed, r);
  }

  lemma RecordsKept(s: State, a: Action)
    requires RecordsOk(s.task.pc, s.queue, s.past) && Enabled(s, a)
    ensures var t := Apply(s, a); RecordsOk(t.task.pc, t.queue, t.past)
  {
    hide Subsequence, I.Acked, Dequeue, Submit, Withdraw;
    if OfThread(a) {
      ThreadFrame(s, a);
    } else if a.GetRecord? {
      DequeuedOk(s, a.rendering);
    } else if a.Discard? {
      DiscardedOk(s);
    } else {
      var t := Apply(s, a);
      if |t.past.acks| != |s.past.acks| {
        AckedOk(s.task.pc, t.task.pc, s.queue, s.past, t.past, t.past.acks[|s.past.acks|].outcome);
      }
    }
  }

  // ----- writes -----

  lemma Exchanged<T>(before: multiset<T>, after: multiset<T>, rest: multiset<T>, x: multiset<T>, y: multiset<T>)
    requires after + x == before + y
    ensures (after + rest) + x == (before + rest) + y
  {
    forall k: T ensures ((after + rest) + x)[k] == ((before + rest) + y)[k] {
      assert (after + x)[k] == (before + y)[k];
    }
  }

  /** With a part of the strays' records written, at most as much is underway as before. */
  lemma StraysGave<T>(w: multiset<T>, e: multiset<T>, r: multiset<T>, w': multiset<T>, r': multiset<T>,
                      x: multiset<T>, y: multiset<T>)
    requires r' + x == r + y && w' + y <= w + x
    ensures w' + e + r' <= w + e + r
  {
    forall k: T ensures (w' + e + r')[k] <= (w + e + r)[k] {
      assert (r' + x)[k] == (r + y)[k] && (w' + y)[k] <= (w + x)[k];
    }
  }

  lemma ExecutorGave<T>(w: multiset<T>, e: multiset<T>, r: multiset<T>, e': multiset<T>)
    requires e' == e || e' == multiset{}
    ensures w + e' + r <= w + e + r
  {
    forall k: T ensures (w + e' + r)[k] <= (w + e + r)[k] {
    }
  }

  lemma StraysTook<T>(w: multiset<T>, e: multiset<T>, r: multiset<T>)
    ensures w + multiset{} + (r + e) == w + e + r
  {
    forall k: T ensures (w + multiset{} + (r + e))[k] == (w + e + r)[k] {
    }
  }

  lemma {:induction false} StrayReplaced(strays: seq<Stage>, k: nat, to: Stage)
    requires k < |strays|
    ensures InStrays(strays[k := to]) + multiset(InStage(strays[k])) == InStrays(strays) + multiset(InStage(to))
  {
    hide InStage;
    var n := |strays| - 1;
    var front := strays[..n];
    var rest := multiset(InStage(strays[n]));
    assert strays == front + [strays[n]];
    if k == n {
      StrayAdded(front, to);
      assert strays[k := to] == front + [to];
      assert InStrays(strays) == InStrays(front) + rest;
      hide InStrays;
      Exchanged(rest, multiset(InStage(to)), InStrays(front), rest, multiset(InStage(to)));
    } else {
      StrayReplaced(front, k, to);
      StrayAdded(front[k := to], strays[n]);
      assert strays[k := to] == front[k := to] + [strays[n]];
      assert InStrays(strays) == InStrays(front) + rest;
      hide InStrays;
      Exchanged(InStrays(front), InStrays(front[k := to]), rest, multiset(InStage(strays[k])), multiset(InStage(to)));
    }
  }

  lemma StrayAdded(strays: seq<Stage>, stage: Stage)
    ensures InStrays(strays + [stage]) == InStrays(strays) + multiset(InStage(stage))
  {
    assert (strays + [stage])[..|strays|] == strays;
  }

  /** The text of a write goes to the sink at most once. */
  lemma WroteOnce(d: Disk, e: Entry, ok: bool)
    ensures multiset(Texts(Wrote(d, e, ok).written)) <= multiset(Texts(d.written)) + multiset([e.record])
  {
    TextsSnoc(d.written, e);
  }

  lemma StrayWrote(sink: Sink, d: Disk, stage: Stage, ok: bool)
    ensures multiset(Texts(StrayOnDisk(sink, d, stage, ok).written)) + multiset(InStage(StrayAfter(sink, d, stage, ok)))
         <= multiset(Texts(d.written)) + multiset(InStage(stage))
  {
    StrayKeepsText(sink, d, stage, ok);
    if stage.Writing? {
      WroteOnce(d, EntryOf(stage), ok);
    }
    hide Texts, StrayOnDisk, StrayAfter, InStage;
  }

  lemma StrayKeepsText(sink: Sink, d: Disk, stage: Stage, ok: bool)
    ensures var d', after := StrayOnDisk(sink, d, stage, ok), StrayAfter(sink, d, stage, ok);
      if stage.Writing? then d' == Wrote(d, EntryOf(stage), ok) && InStage(after) == [] && InStage(stage) == [stage.record]
      else d'.written == d.written && (InStage(after) == [] || InStage(after) == InStage(stage))
  {
  }

  /** A stray's record is written, or still underway, or given up. */
  lemma OnceStray(s: State, k: nat, ok: bool)
    requires Enabled(s, StrayStep(k, ok))
    ensures var t := StrayStepped(s, k, ok); Underway(t.exec, t.strays, t.disk) <= Underway(s.exec, s.strays, s.disk)
  {
    var stage, t := s.strays[k], StrayStepped(s, k, ok);
    StrayReplaced(s.strays, k, t.strays[k]);
    StrayWrote(s.sink, s.disk, stage, ok);
    hide Texts, InStrays, InExecutor, InStage, StrayOnDisk, StrayAfter;
    StraysGave(multiset(Texts(s.disk.written)), multiset(InExecutor(s.exec)), InStrays(s.strays),
               multiset(Texts(t.disk.written)), InStrays(t.strays),
               multiset(InStage(stage)), multiset(InStage(t.strays[k])));
  }

  lemma OnceWritten(s: State, ok: bool)
    requires ExecOk(s.sink, s.task, s.exec) && s.exec.stage.Writing?
    ensures var t := AfterWrite(s, ok); Underway(t.exec, t.strays, t.disk) <= Underway(s.exec, s.strays, s.disk)
  {
    WroteOnce(s.disk, EntryOf(s.exec.stage), ok);
    assert InExecutor(AfterWrite(s, ok).exec) == [];
    assert InExecutor(s.exec) == [s.exec.stage.record];
    hide Texts, InStrays, InExecutor, Wrote;
  }

  lemma OnceCutClose(s: State)
    requires ExecOk(s.sink, s.task, s.exec) && s.task.pc.AwaitingClose?
    ensures var t := AbandonClose(s); Underway(t.exec, t.strays, t.disk) <= Underway(s.exec, s.strays, s.disk)
  {
    var t, stage := AbandonClose(s), s.exec.stage;
    StrayAdded(s.strays, stage);
    assert InExecutor(t.exec) == [] && InExecutor(s.exec) == InStage(stage);
    if stage.Idle? {
      assert InStage(stage) == [];
      hide Texts, InStrays, InExecutor, InStage, ExecOk;
    } else {
      hide Texts, InStrays, InExecutor, InStage, ExecOk;
      StraysTook(multiset(Texts(s.disk.written)), multiset(InStage(stage)), InStrays(s.strays));
    }
  }

  lemma OnceCut(s: State)
    requires ExecOk(s.sink, s.task, s.exec) && AtAwait(s.task.pc) && !s.task.pc.AwaitingClose?
    ensures var t := CancelStep(s); Underway(t.exec, t.strays, t.disk) <= Underway(s.exec, s.strays, s.disk)
  {
    var t := CancelStep(s);
    assert t.disk == s.disk && t.strays == s.strays;
    assert InExecutor(t.exec) == [] || InExecutor(t.exec) == InExecutor(s.exec);
    hide Texts, InStrays, InExecutor, InStage, ExecOk, CancelStep;
    ExecutorGave(multiset(Texts(s.disk.written)), multiset(InExecutor(s.exec)), InStrays(s.strays), multiset(InExecutor(t.exec)));
  }

  lemma OnceDequeued(s: State, rendering: Rendering)
    requires OnceOk(s.exec, s.strays, s.disk, s.past) && ExecOk(s.sink, s.task, s.exec)
    requires s.task.pc.Getting? && s.queue.items != []
    ensures var t := Dequeue(s, rendering); OnceOk(t.exec, t.strays, t.disk, t.past)
  {
    var t, r := Dequeue(s, rendering), s.queue.items[0];
    assert t.disk == s.disk && t.strays == s.strays && t.past.dequeued == s.past.dequeued + [r];
    assert InExecutor(s.exec) == [];
    assert InExecutor(t.exec) == [] || InExecutor(t.exec) == [r];
    hide Texts, InStrays, InExecutor, Dequeue, ExecOk;
  }

  lemma OnceElsewhere(s: State, a: Action)
    requires ExecOk(s.sink, s.task, s.exec) && Enabled(s, a)
    requires !a.StrayStep? && !a.WriteStep? && !a.Cancel? && !a.GetRecord?
    ensures var t := Apply(s, a);
      Underway(t.exec, t.strays, t.disk) <= Underway(s.exec, s.strays, s.disk) && t.past.dequeued == s.past.dequeued
  {
    ElsewhereKeeps(s, a);
    hide Texts, InStrays, Apply, Enabled, ExecOk, InExecutor;
    var t := Apply(s, a);
    ExecutorGave(multiset(Texts(s.disk.written)), multiset(InExecutor(s.exec)), InStrays(s.strays),
                 multiset(InExecutor(t.exec)));
  }

  lemma ElsewhereKeeps(s: State, a: Action)
    requires ExecOk(s.sink, s.task, s.exec) && Enabled(s, a)
    requires !a.StrayStep? && !a.WriteStep? && !a.Cancel? && !a.GetRecord?
    ensures var t := Apply(s, a);
      && t.past.dequeued == s.past.dequeued && t.disk.written == s.disk.written && t.strays == s.strays
      && (InExecutor(t.exec) == [] || InExecutor(t.exec) == InExecutor(s.exec))
  {
    hide CancelStep, StrayStepped, AfterWrite, Dequeue;
    ThreadFrame(s, a);
  }

  lemma OnceKept(s: State, a: Action)
    requires OnceOk(s.exec, s.strays, s.disk, s.past) && ExecOk(s.sink, s.task, s.exec) && Enabled(s, a)
    ensures var t := Apply(s, a); OnceOk(t.exec, t.strays, t.disk, t.past)
  {
    hide Underway, ExecOk, CancelStep, StrayStepped, Dequeue, AfterWrite;
    if a.StrayStep? {
      OnceStray(s, a.k, a.ok);
      ThreadFrame(s, a);
    } else if a.WriteStep? {
      OnceWritten(s, a.ok);
      ThreadFrame(s, a);
    } else if a.Cancel? {
      CancelTakesNothing(s);
      if s.task.pc.AwaitingClose? {
        OnceCutClose(s);
      } else {
        OnceCut(s);
      }
    } else if a.GetRecord? {
      OnceDequeued(s, a.rendering);
    } else {
      OnceElsewhere(s, a);
    }
  }

  lemma CancelTakesNothing(s: State)
    requires AtAwait(s.task.pc)
    ensures CancelStep(s).past.dequeued == s.past.dequeued
    ensures s.task.pc.AwaitingClose? ==> CancelStep(s) == AbandonClose(s)
  {
  }

  lemma WroteMore(sub: seq<LogRecord>, d: Disk, e: Entry, ok: bool)
    requires Subsequence(sub, Texts(d.written))
    ensures Subsequence(sub, Texts(Wrote(d, e, ok).written))
    ensures ok && e.handle !in d.closed ==> Subsequence(sub + [e.record], Texts(Wrote(d, e, ok).written))
  {
    TextsSnoc(d.written, e);
    SubsequenceSnoc(sub, Texts(d.written), e.record);
  }

  /** A confirmation that is dropped or taken into account leaves the rest as it was. */
  lemma Unconfirmed(pc: Pc, e: Executor, d: Disk, h: History)
    requires DeliveredOk(pc, e, d, h)
    ensures Subsequence(I.DeliveredOf(h.acks), Texts(d.written))
  {
    hide Subsequence, Texts, I.DeliveredOf;
    if Confirmed(pc, e) != [] {
      SubsequenceInit(I.DeliveredOf(h.acks), pc.record, Texts(d.written));
    } else {
      assert I.DeliveredOf(h.acks) + [] == I.DeliveredOf(h.acks);
    }
  }

  lemma DeliveredWritten(s: State, ok: bool)
    requires DeliveredOk(s.task.pc, s.exec, s.disk, s.past) && ExecOk(s.sink, s.task, s.exec) && s.exec.stage.Writing?
    ensures var t := AfterWrite(s, ok); DeliveredOk(t.task.pc, t.exec, t.disk, t.past)
  {
    Unconfirmed(s.task.pc, s.exec, s.disk, s.past);
    var d, t := I.DeliveredOf(s.past.acks), AfterWrite(s, ok);
    assert d + [] == d;
    WroteMore(d, s.disk, EntryOf(s.exec.stage), ok);
    hide Subsequence, Texts, I.DeliveredOf, Wrote;
    assert Confirmed(t.task.pc, t.exec) == [] || (ok && Confirmed(t.task.pc, t.exec) == [s.exec.stage.record]);
  }

  lemma DeliveredThread(s: State, a: Action)
    requires DeliveredOk(s.task.pc, s.exec, s.disk, s.past) && ExecOk(s.sink, s.task, s.exec)
    requires OfThread(a) && Enabled(s, a)
    ensures var t := Apply(s, a); DeliveredOk(t.task.pc, t.exec, t.disk, t.past)
  {
    hide Subsequence, Texts, I.DeliveredOf, Wrote, AfterWrite;
    if a.WriteStep? {
      DeliveredWritten(s, a.ok);
    } else if a.StrayStep? {
      if s.strays[a.k].Writing? {
        WroteMore(I.DeliveredOf(s.past.acks) + Confirmed(s.task.pc, s.exec), s.disk, EntryOf(s.strays[a.k]), a.ok);
      }
    } else {
      var t := Apply(s, a);
      Unconfirmed(s.task.pc, s.exec, s.disk, s.past);
      assert I.DeliveredOf(s.past.acks) + [] == I.DeliveredOf(s.past.acks);
      assert Confirmed(t.task.pc, t.exec) == [] || Confirmed(t.task.pc, t.exec) == Confirmed(s.task.pc, s.exec);
    }
  }

  lemma DeliveredResumed(s: State)
    requires DeliveredOk(s.task.pc, s.exec, s.disk, s.past) && ExecOk(s.sink, s.task, s.exec) && Enabled(s, ResumeWrite)
    ensures var t := Apply(s, ResumeWrite); DeliveredOk(t.task.pc, t.exec, t.disk, t.past)
  {
    hide Subsequence, Texts, I.DeliveredOf;
    var t := Apply(s, ResumeWrite);
    DeliveredSnoc(s.past.acks, t.past.acks[|s.past.acks|]);
    assert I.DeliveredOf(t.past.acks) + [] == I.DeliveredOf(t.past.acks);
    assert I.DeliveredOf(s.past.acks) + [] == I.DeliveredOf(s.past.acks);
  }

  /** Nothing else is acknowledged as delivered. */
  lemma DeliveredElsewhere(s: State, a: Action)
    requires !OfThread(a) && !a.ResumeWrite? && Enabled(s, a)
    ensures var t := Apply(s, a); I.DeliveredOf(t.past.acks) == I.DeliveredOf(s.past.acks)
  {
    hide I.DeliveredOf, Submit, Withdraw;
    var t := Apply(s, a);
    if |t.past.acks| != |s.past.acks| {
      DeliveredSnoc(s.past.acks, t.past.acks[|s.past.acks|]);
      assert I.DeliveredOf(s.past.acks) + [] == I.DeliveredOf(s.past.acks);
    }
  }

  lemma DeliveredCoroutine(s: State, a: Action)
    requires DeliveredOk(s.task.pc, s.exec, s.disk, s.past) && ExecOk(s.sink, s.task, s.exec)
    requires !OfThread(a) && Enabled(s, a)
    ensures var t := Apply(s, a); DeliveredOk(t.task.pc, t.exec, t.disk, t.past)
  {
    hide Subsequence, Texts, I.DeliveredOf;
    if a.ResumeWrite? {
      DeliveredResumed(s);
    } else {
      var t := Apply(s, a);
      ThreadFrame(s, a);
      DeliveredElsewhere(s, a);
      Unconfirmed(s.task.pc, s.exec, s.disk, s.past);
      assert I.DeliveredOf(s.past.acks) + [] == I.DeliveredOf(s.past.acks);
      assert Confirmed(t.task.pc, t.exec) == [] || Confirmed(t.task.pc, t.exec) == Confirmed(s.task.pc, s.exec);
    }
  }

  // ----- the sink -----

  lemma SinkThreadKept(s: State, a: Action)
    requires SinkOk(s.sink, s.exec, s.strays, s.disk) && OfThread(a) && Enabled(s, a)
    ensures var t := Apply(s, a); SinkOk(t.sink, t.exec, t.strays, t.disk)
  {
    ThreadFrame(s, a);
    if a.StrayStep? {
      ResettingKept(s.strays, a.k, Apply(s, a).strays[a.k]);
    }
    hide IsResetting;
  }

  lemma ResettingKept(strays: seq<Stage>, k: nat, to: Stage)
    requires k < |strays|
    ensures to.Resetting? ==> IsResetting(strays[k := to])
    ensures IsResetting(strays) && !strays[k].Resetting? ==> IsResetting(strays[k := to])
  {
    assert strays[k := to][k] == to;
    if j :| 0 <= j < |strays| && strays[j].Resetting? && j != k {
      assert strays[k := to][j].Resetting?;
    }
  }

  lemma ResettingAdded(strays: seq<Stage>, stage: Stage)
    ensures IsResetting(strays + [stage]) <==> IsResetting(strays) || stage.Resetting?
  {
    assert (strays + [stage])[|strays|] == stage;
    if j :| 0 <= j < |strays| && strays[j].Resetting? {
      assert (strays + [stage])[j].Resetting?;
    }
  }

  lemma SinkCoroutineKept(s: State, a: Action)
    requires SinkOk(s.sink, s.exec, s.strays, s.disk) && ExecOk(s.sink, s.task, s.exec) && !OfThread(a) && Enabled(s, a)
    ensures var t := Apply(s, a); SinkOk(t.sink, t.exec, t.strays, t.disk)
  {
    ThreadFrame(s, a);
    ResettingAdded(s.strays, s.exec.stage);
    hide Acknowledge, IsResetting;
  }

  lemma StepKeepsInv(s: State, a: Action)
    requires Inv(s) && Enabled(s, a)
    ensures Inv(Apply(s, a))
  {
    hide ExecOk, ExitOk, RecordsOk, OnceOk, DeliveredOk, SinkOk, Apply, Enabled;
    if OfThread(a) {
      ExecThreadKept(s, a);
      DeliveredThread(s, a);
      SinkThreadKept(s, a);
    } else {
      ExecCoroutineKept(s, a);
      DeliveredCoroutine(s, a);
      SinkCoroutineKept(s, a);
    }
    ExitKept(s, a);
    RecordsKept(s, a);
    OnceKept(s, a);
  }

  lemma InitialOk(sink: Sink)
    ensures Inv(Initial(sink))
  {
  }

  lemma {:induction false} RunKeepsInv(sink: Sink, acts: seq<Action>)
    requires IsRun(Initial(sink), acts)
    ensures Inv(Exec(Initial(sink), acts))
  {
    hide IsRun, Exec, Inv, Enabled, Apply;
    if acts == [] {
      NoSteps(Initial(sink));
      InitialOk(sink);
    } else {
      var before := acts[..|acts| - 1];
      RunLast(Initial(sink), acts);
      RunKeepsInv(sink, before);
      StepKeepsInv(Exec(Initial(sink), before), acts[|acts| - 1]);
    }
  }

  // ----- the theorems -----

  /** `s` is a state some run of a fresh backend ends in. */
  ghost predicate Reachable(s: State) {
    exists sink: Sink, acts: seq<Action> :: IsRun(Initial(sink), acts) && s == Exec(Initial(sink), acts)
  }

  lemma ReachableInv(s: State)
    requires Reachable(s)
    ensures Inv(s)
  {
    hide IsRun, Exec, Inv;
    var sink: Sink, acts: seq<Action> :| IsRun(Initial(sink), acts) && s == Exec(Initial(sink), acts);
    RunKeepsInv(sink, acts);
  }

  /**
   * Every record taken from the queue is acknowledged once, in order; its text is in the sink at most once, and is
   * there if the record was acknowledged as delivered, in the order of the acknowledgements.
   */
  lemma WrittenOnce(s: State)
    requires Reachable(s)
    ensures I.Acked(s.past.acks) + InHand(s.task.pc) == s.past.dequeued
    ensures s.past.puts == s.past.removed + s.queue.items && Subsequence(s.past.dequeued, s.past.removed)
    ensures multiset(Texts(s.disk.written)) <= multiset(s.past.dequeued)
    ensures Subsequence(I.DeliveredOf(s.past.acks), Texts(s.disk.written))
    ensures s.queue.unfinished == |s.queue.items| + |InHand(s.task.pc)|
  {
    ReachableInv(s);
    Unconfirmed(s.task.pc, s.exec, s.disk, s.past);
  }

  /** A file of the host's, like standard output, is never opened, closed, or exchanged. */
  lemma HostSinkUntouched(s: State)
    requires Reachable(s) && !s.sink.Owned?
    ensures s.disk.openCount == 0 && s.disk.closed == {} && s.disk.spoiled == []
    ensures s.sink.Injected? ==> s.disk.stream == Some(0)
    ensures forall i | 0 <= i < |s.disk.written| :: s.disk.written[i].handle == 0
  {
    ReachableInv(s);
  }
}
