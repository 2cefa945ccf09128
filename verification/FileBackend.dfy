/**
 * The file and console backends as objects: the executor, the stream methods its thread runs, and the worker's
 * loop.  A script tells what happens at each await -- what the thread and everybody else do meanwhile, and how the
 * await ends; when it runs out the worker stays suspended.  `model` and `trace` tie every statement to the step
 * machine, so its theorems hold of the object.
 */
module FileBackends {
  import opened Records
  import opened FileWorker
  import opened FileWorkerTheorems
  import opened FileWorkerTeardown
  import opened FileWorkerWrites
  import P = Pipeline
  import I = PipelineInvariant

  /** `_WriteExecutor`: a lazily created single-thread pool, here with its queue and its thread's state. */
  class WriteExecutor {
    var created: bool
    var pending: seq<Op>
    var stage: Stage
    var wanted: bool
    var result: Option<bool>

    ghost function Contents(): Executor
      reads this
    {
      Executor(pending, stage, wanted, result)
    }

    ghost predicate Valid()
      reads this
    {
      !created ==> Contents() == FRESH_EXECUTOR
    }

    constructor ()
      ensures Valid() && Contents() == FRESH_EXECUTOR
    {
      created, pending, stage, wanted, result := false, [], Idle, false, None;
    }

    /** `run`, up to its await: the pool is created on first use. */
    method Run(op: Op)
      requires Valid()
      modifies this
      ensures Valid() && Contents() == Submit(old(Contents()), op) && created && pending == old(pending) + [op]
    {
      created := true;
      pending, result := pending + [op], None;
    }

    /** The awaiting coroutine was cancelled. */
    method TakeBack()
      requires Valid()
      modifies this
      ensures Valid() && Contents() == Withdraw(old(Contents()))
    {
      pending, wanted, result := [], false, None;
    }

    /** The coroutine received the result. */
    method Consume()
      requires Valid()
      modifies this
      ensures Valid() && Contents() == old(Contents()).(result := None)
    {
      result := None;
    }

    /** The thread takes the oldest operation. */
    method Take()
      requires Valid() && pending != [] && stage.Idle?
      modifies this
      ensures Valid() && Contents() == Executor(old(pending)[1..], Begin(old(pending)[0]), true, old(result))
    {
      stage, pending, wanted := Begin(pending[0]), pending[1..], true;
    }

    method Advance(to: Stage)
      requires Valid() && !stage.Idle?
      modifies this
      ensures Valid() && Contents() == old(Contents()).(stage := to)
    {
      stage := to;
    }

    method Done(ok: bool)
      requires Valid() && !stage.Idle?
      modifies this
      ensures Valid() && Contents() == Finish(old(Contents()), ok)
    {
      if wanted {
        result := Some(ok);
      }
      stage, wanted := Idle, false;
    }

    /** `shutdown`, once the thread has run out of work: the pool is released, if there was one. */
    method Release()
      requires Valid() && Quiescent(Contents())
      modifies this
      ensures Valid() && !created && Contents() == FRESH_EXECUTOR
    {
      if created {
        created, wanted, result := false, false, None;
      }
    }
  }

  datatype Wakeup = Arrives(rendering: Rendering) | TimesOut | IsCancelled

  /** `meanwhile` happens while the worker is suspended at the await. */
  datatype Turn = Turn(meanwhile: seq<Action>, wakeup: Wakeup)

  datatype Flow = Proceed | Continue | Interrupted | Suspended

  /** The last turn played was a cancellation. */
  predicate CancelledAt(script: seq<Turn>, now: nat) {
    0 < now <= |script| && script[now - 1].wakeup.IsCancelled?
  }

  predicate CancelledWithin(script: seq<Turn>, now: nat) {
    now <= |script| && exists k | 0 <= k < now :: script[k].wakeup.IsCancelled?
  }

  lemma CancelledBefore(script: seq<Turn>, at: nat, now: nat)
    requires CancelledAt(script, at) && at <= now <= |script|
    ensures CancelledWithin(script, now)
  {
    assert script[at - 1].wakeup.IsCancelled?;
  }

  /** One more record acknowledged, with this outcome. */
  predicate AckedOnce(before: seq<P.Ack>, after: seq<P.Ack>, record: LogRecord, outcome: P.Outcome) {
    after == before + [P.Ack(record, outcome)]
  }

  /** What the coroutine can rely on over a suspension. */
  ghost predicate Meantime(s: State, t: State) {
    && t.sink == s.sink
    && t.task == s.task.(running := t.task.running) && (t.task.running ==> s.task.running)
    && t.past == s.past.(puts := t.past.puts)
    && s.queue.items <= t.queue.items
  }

  predicate Elsewhere(a: Action) {
    OfThread(a) || a.Put? || a.ClearRunning?
  }

  lemma ElsewhereOnce(s: State, t: State, a: Action)
    requires Meantime(s, t) && Elsewhere(a) && Enabled(t, a)
    ensures Meantime(s, Apply(t, a))
  {
    ThreadFrame(t, a);
    if OfThread(a) {
      hide Apply;
    }
  }

  /** What `a` of somebody else comes to: nothing when it is not possible. */
  function Other(s: State, a: Action): State {
    if Elsewhere(a) && Enabled(s, a) then Apply(s, a) else s
  }

  function Performed(s: State, burst: seq<Action>): State {
    if burst == [] then s else Other(Performed(s, burst[..|burst| - 1]), burst[|burst| - 1])
  }

  /** The turn in which the thread does whatever it has to do, without a failure. */
  const GOOD_TURN := Turn([TakeOp, OpenStep(true), WriteStep(true), CloseStep, ResetStep], Arrives(Text))

  ghost predicate AllWell(script: seq<Turn>, used: nat) {
    forall k | used <= k < |script| :: script[k] == GOOD_TURN
  }

  lemma StillWell(script: seq<Turn>, used: nat, now: nat)
    requires AllWell(script, used) && used <= now
    ensures AllWell(script, now) && (now < |script| ==> script[now] == GOOD_TURN)
  {
  }

  lemma GoodTurn(s: State)
    ensures Performed(s, GOOD_TURN.meanwhile) ==
      Other(Other(Other(Other(Other(s, TakeOp), OpenStep(true)), WriteStep(true)), CloseStep), ResetStep)
  {
    hide Other;
    var acts := GOOD_TURN.meanwhile;
    assert acts[..4][..3] == acts[..3] && acts[..3][..2] == acts[..2] && acts[..2][..1] == acts[..1] && acts[..1][..0] == [];
    assert Performed(s, acts[..1]) == Other(s, TakeOp);
    assert Performed(s, acts[..2]) == Other(Performed(s, acts[..1]), OpenStep(true));
    assert Performed(s, acts[..3]) == Other(Performed(s, acts[..2]), WriteStep(true));
    assert Performed(s, acts[..4]) == Other(Performed(s, acts[..3]), CloseStep);
  }

  lemma NothingToDo(s: State)
    requires Quiescent(s.exec)
    ensures Performed(s, GOOD_TURN.meanwhile) == s
  {
    hide Performed;
    GoodTurn(s);
  }

  lemma WritesWell(s: State, r: LogRecord)
    requires SinkKnown(s) && WriteQueued(s, r) && HandleFor(s) !in s.disk.closed
    ensures var t, e := WithHandle(s, r), Entry(r, HandleFor(s), s.task.cycle);
      Performed(s, GOOD_TURN.meanwhile) ==
      t.(exec := Executor([], Idle, false, Some(true)), disk := t.disk.(written := t.disk.written + [e]))
  {
    hide Performed;
    GoodTurn(s);
    OpenGoesWell(s, r, true);
    WriteComesBack(s, r, true);
  }

  lemma ClosesWell(s: State)
    requires s.task.pc.AwaitingClose? && Queued(s.exec, Close) && s.exec.stage.Idle?
    ensures var t := Performed(s, GOOD_TURN.meanwhile);
      && t.exec == Executor([], Idle, false, Some(true)) && t == s.(exec := t.exec, disk := t.disk)
      && t.disk.written == s.disk.written
  {
    hide Performed, Other;
    GoodTurn(s);
    ClosingStarts(s);
    var t := s.(exec := Executor([], Closing, true, None));
    NotWriting(t);
    ClosingEnds(t);
  }

  lemma ClosingStarts(s: State)
    requires Queued(s.exec, Close) && s.exec.stage.Idle?
    ensures Other(s, TakeOp) == s.(exec := Executor([], Closing, true, None))
  {
  }

  lemma NotWriting(s: State)
    requires s.exec.stage.Closing?
    ensures Other(s, OpenStep(true)) == s && Other(s, WriteStep(true)) == s
  {
  }

  lemma ClosingEnds(s: State)
    requires s.exec == Executor([], Closing, true, None)
    ensures var t := Other(Other(s, CloseStep), ResetStep);
      t.exec == Executor([], Idle, false, Some(true)) && t == s.(exec := t.exec, disk := t.disk) && t.disk.written == s.disk.written
  {
  }

  /** The texts of `records` on one handle. */
  function Entries(records: seq<LogRecord>, handle: nat, cycle: nat): (r: seq<Entry>)
    ensures |r| == |records|
  {
    seq(|records|, k requires 0 <= k < |records| => Entry(records[k], handle, cycle))
  }

  lemma EntriesNext(records: seq<LogRecord>, n: nat, handle: nat, cycle: nat)
    requires n < |records|
    ensures Entries(records[..n + 1], handle, cycle) == Entries(records[..n], handle, cycle) + [Entry(records[n], handle, cycle)]
  {
  }

  /** Steps the executor's thread still needs for the work it has. */
  function WorkLeft(e: Executor): nat {
    3 * |e.pending| +
    (match e.stage case Idle => 0 case Opening(_, _) => 2 case Writing(_, _, _) => 1 case Closing => 2 case Resetting => 1)
  }

  /** What a record that comes to no text is acknowledged as. */
  function Unwritten(rendering: Rendering): P.Outcome
    requires !rendering.Text?
  {
    if rendering.NoFormatter? then P.Skipped else P.Reported
  }

  /** Of the records `all`, the oldest is taken when `get` returns; otherwise none is taken or acknowledged. */
  predicate FetchedFrom(all: seq<LogRecord>, left: seq<LogRecord>, wakeup: Wakeup, flow: Flow, record: Option<LogRecord>,
                        before: seq<P.Ack>, acks: seq<P.Ack>) {
    if wakeup.Arrives? && all != [] then
      && left == all[1..]
      && (if wakeup.rendering.Text? then flow.Proceed? && record == Some(all[0]) && acks == before
          else flow.Continue? && AckedOnce(before, acks, all[0], Unwritten(wakeup.rendering)))
    else left == all && acks == before && flow == if wakeup.IsCancelled? then Interrupted else Continue
  }

  /** How awaiting a write may leave the worker: its record acknowledged once, cut off only by a cancellation. */
  ghost predicate WriteEnded(flow: Flow, before: State, after: State, acks: seq<P.Ack>, now: seq<P.Ack>, record: LogRecord) {
    && (flow.Continue? ==> AckedOnce(acks, now, record, P.Delivered) || AckedOnce(acks, now, record, P.Reported))
    && (flow.Interrupted? ==> AckedOnce(acks, now, record, P.CutOff))
    && (flow.Proceed? || flow.Suspended? ==> now == acks)
    && (!flow.Interrupted? ==> after.task.cancelled == before.task.cancelled)
  }

  /** The awaited operation comes back in this turn. */
  predicate BackAtOnce(s: State, turn: Turn) {
    !turn.wakeup.IsCancelled? && Performed(s, turn.meanwhile).exec.result.Some?
  }

  /** The record whose write has come back is acknowledged by how it went, and the worker goes on. */
  function ResumedFrom(s: State, record: LogRecord): State
    requires s.exec.result.Some?
  {
    var outcome := if s.exec.result.value then P.Delivered else P.Reported;
    s.(task := s.task.(pc := LoopHead), exec := s.exec.(result := None),
       queue := s.queue.(unfinished := s.queue.unfinished - 1), past := s.past.(acks := s.past.acks + [P.Ack(record, outcome)]))
  }

  function Closed(s: State): State {
    s.(task := s.task.(pc := ShuttingDown))
  }

  lemma Fetches(s: State)
    requires Inv(s) && s.task.pc.LoopHead? && s.queue.items != [] && s.strays == []
    ensures var t, r := s.(task := s.task.(pc := Getting)), s.queue.items[0];
      && Quiescent(t.exec) && Enabled(t, GetRecord(Text))
      && var u := Apply(t, GetRecord(Text));
      && u.task == s.task.(pc := AwaitingWrite(r)) && WriteQueued(u, r) && u.disk == s.disk && u.sink == s.sink
      && u.strays == [] && u.queue.items == s.queue.items[1..] && u.past.acks == s.past.acks
      && SinkKnown(u) && HandleFor(u) !in u.disk.closed
  {
  }

  /** `get` returns a record in the first turn, which has a text, and its write comes back in the second. */
  predicate InTwoTurns(s: State, first: Turn, second: Turn) {
    var t := Performed(s, first.meanwhile);
    first.wakeup == Arrives(Text) && Enabled(t, GetRecord(Text)) && BackAtOnce(Apply(t, GetRecord(Text)), second)
  }

  function AfterTwoTurns(s: State, first: Turn, second: Turn): State
    requires InTwoTurns(s, first, second)
  {
    var t := Performed(s, first.meanwhile);
    ResumedFrom(Performed(Apply(t, GetRecord(Text)), second.meanwhile), t.queue.items[0])
  }

  /** One record, with a thread that does all its work in the turn it gets it. */
  lemma WholeTurn(s: State)
    requires Inv(s) && s.task.pc.LoopHead? && s.queue.items != [] && s.strays == []
    ensures var t, r := s.(task := s.task.(pc := Getting)), s.queue.items[0];
      && InTwoTurns(t, GOOD_TURN, GOOD_TURN)
      && var v := AfterTwoTurns(t, GOOD_TURN, GOOD_TURN);
      && v.task == s.task && v.queue.items == s.queue.items[1..] && v.strays == []
      && v.past.acks == s.past.acks + [P.Ack(r, P.Delivered)] && HandleFor(v) == HandleFor(s)
      && v.disk.written == s.disk.written + [Entry(r, HandleFor(s), s.task.cycle)]
  {
    Fetches(s);
    hide Performed, Apply, Enabled, Inv, BackAtOnce, ResumedFrom, HandleFor;
    var t := s.(task := s.task.(pc := Getting));
    NothingToDo(t);
    ResumesWell(Apply(t, GetRecord(Text)), s.queue.items[0]);
    SameHandle(s, Apply(t, GetRecord(Text)));
  }

  lemma SameHandle(s: State, t: State)
    requires t.sink == s.sink && t.disk == s.disk
    ensures HandleFor(t) == HandleFor(s)
  {
  }

  lemma ResumesWell(s: State, r: LogRecord)
    requires SinkKnown(s) && WriteQueued(s, r) && HandleFor(s) !in s.disk.closed
    ensures BackAtOnce(s, GOOD_TURN)
    ensures var v := ResumedFrom(Performed(s, GOOD_TURN.meanwhile), r);
      && v.task == s.task.(pc := LoopHead) && v.queue.items == s.queue.items && v.strays == s.strays
      && v.past.acks == s.past.acks + [P.Ack(r, P.Delivered)] && HandleFor(v) == HandleFor(s)
      && v.disk.written == s.disk.written + [Entry(r, HandleFor(s), s.task.cycle)]
  {
    hide Performed;
    WritesWell(s, r);
  }

  /** Every call the thread makes goes well. */
  ghost predicate Lucky(luck: nat -> bool) {
    forall k :: luck(k)
  }

  /** The thread is still at the write to standard output it was at in `s`, or has done it. */
  ghost predicate FinishesWrite(s: State, t: State) {
    && t.sink.Stdout? && IsWrite(s.exec.stage) && t.disk.closed == {} && t.exec.pending == []
    && var e := Entry(s.exec.stage.record, 0, s.exec.stage.cycle);
    if t.exec.stage.Idle? then t.disk.written == s.disk.written + [e]
    else
      && t.disk.written == s.disk.written && IsWrite(t.exec.stage) && t.exec.stage.record == e.record
      && t.exec.stage.cycle == e.cycle && (t.exec.stage.Writing? ==> t.exec.stage.handle == 0)
  }

  lemma WriteNearsEnd(s: State, t: State, a: Action)
    requires FinishesWrite(s, t) && OfThread(a) && !a.StrayStep? && Enabled(t, a)
    requires (a.OpenStep? ==> a.ok) && (a.WriteStep? ==> a.ok)
    ensures FinishesWrite(s, Apply(t, a))
  {
  }

  class FileBackend {
    const sink: Sink
    var stream: Option<nat>
    var openCount: nat
    var closed: set<nat>
    var written: seq<Entry>
    var spoiled: seq<Entry>
    var executor: WriteExecutor
    var strays: seq<Stage>
    var running: bool
    var cycle: nat
    var items: seq<LogRecord>
    var unfinished: int
    var acks: seq<P.Ack>
    ghost var model: State
    ghost var trace: seq<Action>

    function OnDisk(): Disk
      reads this
    {
      Disk(stream, openCount, closed, written, spoiled)
    }

    /** The object's fields and effects are those of `s`. */
    ghost predicate Agrees(s: State)
      reads this, executor
    {
      && executor.Valid()
      && s.sink == sink && s.disk == OnDisk() && s.exec == executor.Contents() && s.strays == strays
      && s.task.running == running && s.task.cycle == cycle
      && s.queue == Queue(items, unfinished) && s.past.acks == acks
    }

    /** `model` is the state the recorded steps lead to. */
    ghost predicate Traced()
      reads this
    {
      IsRun(Initial(sink), trace) && model == Exec(Initial(sink), trace)
    }

    ghost predicate Valid()
      reads this, executor
    {
      Traced() && Agrees(model)
    }

    constructor (sink: Sink)
      ensures Valid() && this.sink == sink && trace == [] && fresh(executor)
    {
      this.sink := sink;
      stream, openCount, closed, written, spoiled := if sink.Injected? then Some(0) else None, 0, {}, [], [];
      strays, running, cycle, items, unfinished, acks := [], false, 0, [], 0, [];
      executor := new WriteExecutor();
      model, trace := Initial(sink), [];
    }

    /** The object has just taken step `a` of the machine. */
    ghost method Took(a: Action)
      requires Traced() && Enabled(model, a) && Agrees(Apply(model, a))
      modifies this`model, this`trace
      ensures Valid() && model == Apply(old(model), a) && trace == old(trace) + [a]
    {
      hide Enabled, Apply;
      RunSnoc(Initial(sink), trace, a);
      model, trace := Apply(model, a), trace + [a];
    }

    lemma ValidInv()
      requires Valid()
      ensures Inv(model)
    {
      RunKeepsInv(sink, trace);
    }

    // ----- the executor's thread -----

    method TakeOp()
      requires Valid() && executor.pending != [] && executor.stage.Idle?
      modifies this, executor
      ensures executor == old(executor) && Valid() && model == Apply(old(model), Action.TakeOp)
    {
      hide IsRun, Exec;
      executor.Take();
      Took(Action.TakeOp);
    }

    /** `_open_stream`; `ok` tells whether `open()` would succeed. */
    method OpenStream(ok: bool) returns (target: Option<nat>)
      modifies this`stream, this`openCount
      ensures OnDisk() == Open(sink, old(OnDisk()), ok) && target == Target(sink, OnDisk())
      ensures !sink.Owned? ==> target == Some(0) && openCount == old(openCount)
      ensures sink.Owned? ==> target == if old(stream) == None && ok then Some(openCount) else old(stream)
      ensures stream == if sink.Stdout? then old(stream) else target
      ensures openCount == old(openCount) + (if sink.Owned? && old(stream) == None && ok then 1 else 0)
    {
      if sink.Injected? {
        stream := Some(0);
      } else if sink.Owned? && stream == None && ok {
        openCount := openCount + 1;
        stream := Some(openCount);
      }
      target := if sink.Stdout? then Some(0) else stream;
    }

    /** The first half of `_write_record`. */
    method BeginWrite(ok: bool)
      requires Valid() && executor.stage.Opening?
      modifies this, executor
      ensures executor == old(executor) && Valid() && model == Apply(old(model), OpenStep(ok))
    {
      hide IsRun, Exec;
      var stage := executor.stage;
      var target := OpenStream(ok);
      if target.Some? {
        executor.Advance(Writing(stage.record, stage.cycle, target.value));
      } else {
        executor.Done(false);
      }
      Took(OpenStep(ok));
    }

    /** `write` and `flush`, which raise on a closed handle. */
    method WriteText(entry: Entry, ok: bool) returns (good: bool)
      modifies this`written, this`spoiled
      ensures OnDisk() == Wrote(old(OnDisk()), entry, ok) && good == (ok && entry.handle !in closed)
    {
      good := ok && entry.handle !in closed;
      if entry.handle in closed {
        spoiled := spoiled + [entry];
      } else if ok {
        written := written + [entry];
      }
    }

    /** The second half of `_write_record`. */
    method EndWrite(ok: bool)
      requires Valid() && executor.stage.Writing?
      modifies this, executor
      ensures executor == old(executor) && Valid() && model == Apply(old(model), WriteStep(ok))
    {
      hide IsRun, Exec;
      var good := WriteText(EntryOf(executor.stage), ok);
      executor.Done(good);
      Took(WriteStep(ok));
    }

    /** The first half of `_close_stream`; false when there is nothing to close. */
    method CloseStream() returns (some: bool)
      modifies this`closed
      ensures some == HasStream(sink, old(OnDisk()))
      ensures OnDisk() == if some then CloseHandle(old(OnDisk())) else old(OnDisk())
    {
      some := sink.Owned? && stream.Some?;
      if some {
        closed := closed + {stream.value};
      }
    }

    method BeginClose()
      requires Valid() && executor.stage.Closing?
      modifies this, executor
      ensures executor == old(executor) && Valid() && model == Apply(old(model), CloseStep)
    {
      hide IsRun, Exec;
      var some := CloseStream();
      if some {
        executor.Advance(Resetting);
      } else {
        executor.Done(true);
      }
      Took(CloseStep);
    }

    method EndClose()
      requires Valid() && executor.stage.Resetting?
      modifies this, executor
      ensures executor == old(executor) && Valid() && model == Apply(old(model), ResetStep)
    {
      hide IsRun, Exec;
      stream := None;
      executor.Done(true);
      Took(ResetStep);
    }

    /** A thread left over from an earlier cycle runs on. */
    method RunStray(k: nat, ok: bool)
      requires Valid() && k < |strays|
      modifies this
      ensures executor == old(executor) && Valid() && model == Apply(old(model), StrayStep(k, ok))
    {
      hide IsRun, Exec;
      var next := StrayWorks(strays[k], ok);
      strays := strays[k := next];
      Took(StrayStep(k, ok));
    }

    /** The next half of its operation. */
    method StrayWorks(stage: Stage, ok: bool) returns (next: Stage)
      modifies this`stream, this`openCount, this`closed, this`written, this`spoiled
      ensures OnDisk() == StrayOnDisk(sink, old(OnDisk()), stage, ok) && next == StrayAfter(sink, old(OnDisk()), stage, ok)
    {
      next := Idle;
      match stage {
        case Idle =>
        case Opening(record, cycle) =>
          var target := OpenStream(ok);
          next := if target.Some? then Writing(record, cycle, target.value) else Idle;
        case Writing(_, _, _) =>
          var _ := WriteText(EntryOf(stage), ok);
        case Closing =>
          var some := CloseStream();
          next := if some then Resetting else Idle;
        case Resetting =>
          stream := None;
      }
    }

    /** `Enabled`, read off the object. */
    predicate IsReady(a: Action)
      requires Elsewhere(a)
      reads this, executor
    {
      match a
      case Put(_) => running
      case TakeOp => executor.pending != [] && executor.stage.Idle?
      case OpenStep(_) => executor.stage.Opening?
      case WriteStep(_) => executor.stage.Writing?
      case CloseStep => executor.stage.Closing?
      case ResetStep => executor.stage.Resetting?
      case StrayStep(k, _) => k < |strays|
      case _ => true
    }

    method ThreadStep(a: Action)
      requires Valid() && OfThread(a) && IsReady(a)
      modifies this, executor
      ensures executor == old(executor) && Valid() && Enabled(old(model), a) && model == Apply(old(model), a)
    {
      hide IsRun, Exec;
      if a.TakeOp? {
        TakeOp();
      } else if a.OpenStep? {
        BeginWrite(a.ok);
      } else if a.WriteStep? {
        EndWrite(a.ok);
      } else if a.CloseStep? {
        BeginClose();
      } else if a.ResetStep? {
        EndClose();
      } else {
        RunStray(a.k, a.ok);
      }
    }

    // ----- what others do -----

    method Put(record: LogRecord)
      requires Valid() && running
      modifies this
      ensures executor == old(executor) && Valid() && model == Apply(old(model), Action.Put(record))
    {
      hide IsRun, Exec;
      items, unfinished := items + [record], unfinished + 1;
      Took(Action.Put(record));
    }

    method ClearRunning()
      requires Valid()
      modifies this
      ensures executor == old(executor) && Valid() && model == Apply(old(model), Action.ClearRunning)
    {
      hide IsRun, Exec;
      running := false;
      Took(Action.ClearRunning);
    }

    method Others(burst: seq<Action>)
      requires Valid()
      modifies this, executor
      ensures executor == old(executor) && Valid() && Meantime(old(model), model)
      ensures model == Performed(old(model), burst)
    {
      hide IsRun, Exec, Enabled, Apply;
      for k := 0 to |burst|
        invariant executor == old(executor) && Valid() && Meantime(old(model), model)
        invariant model == Performed(old(model), burst[..k])
      {
        assert burst[..k + 1][..k] == burst[..k];
        if Elsewhere(burst[k]) {
          ReadyIsEnabled(burst[k]);
        }
        if Elsewhere(burst[k]) && IsReady(burst[k]) {
          ElsewhereOnce(old(model), model, burst[k]);
          OneOther(burst[k]);
        }
      }
      assert burst[..|burst|] == burst;
    }

    lemma ReadyIsEnabled(a: Action)
      requires Valid() && Elsewhere(a)
      ensures IsReady(a) <==> Enabled(model, a)
    {
      hide IsRun, Exec;
    }

    method OneOther(a: Action)
      requires Valid() && Elsewhere(a) && IsReady(a)
      modifies this, executor
      ensures executor == old(executor) && Valid() && Enabled(old(model), a) && model == Apply(old(model), a)
    {
      hide IsRun, Exec;
      if a.Put? {
        Put(a.record);
      } else if a.ClearRunning? {
        ClearRunning();
      } else {
        ThreadStep(a);
      }
    }

    /** Suspend until the next turn of the script, if there is one. */
    method Await(script: seq<Turn>, used: nat) returns (now: nat, wakeup: Option<Wakeup>)
      requires Valid() && used <= |script|
      modifies this, executor
      ensures executor == old(executor) && Valid() && Meantime(old(model), model)
      ensures if used < |script| then now == used + 1 && wakeup == Some(script[used].wakeup)
              else now == used && wakeup == None
      ensures model == if used < |script| then Performed(old(model), script[used].meanwhile) else old(model)
    {
      now, wakeup := used, None;
      if used < |script| {
        Others(script[used].meanwhile);
        now, wakeup := used + 1, Some(script[used].wakeup);
      }
    }

    // ----- the pieces of `_worker` -----

    /** `start_logging` sets the running flag and creates the worker's task, with an executor of its own. */
    method StartWorker()
      requires Valid() && (model.task.pc.NotStarted? || model.task.pc.Ended?) && !running && items == []
      modifies this
      ensures Valid() && fresh(executor) && model == Apply(old(model), Start)
    {
      hide IsRun, Exec;
      running, cycle := true, cycle + 1;
      executor := new WriteExecutor();
      Took(Start);
    }

    method TaskDone(record: LogRecord, outcome: P.Outcome)
      modifies this`unfinished, this`acks
      ensures unfinished == old(unfinished) - 1 && acks == old(acks) + [P.Ack(record, outcome)]
    {
      unfinished, acks := unfinished - 1, acks + [P.Ack(record, outcome)];
    }

    ghost predicate InTeardown()
      reads this
    {
      model.task.pc == if sink.Stdout? then ShuttingDown else AwaitingClose
    }

    /** The outer `finally`, up to its await: the close goes behind whatever still runs. */
    method BeginFinally()
      requires executor.Valid()
      modifies executor
      ensures executor.Valid()
      ensures executor.Contents() == if sink.Stdout? then old(executor.Contents()) else Submit(old(executor.Contents()), Close)
    {
      if !sink.Stdout? {
        executor.Run(Close);
      }
    }

    /** The cancellation arrives while the worker awaits a record or the write of the one in `hand`. */
    method Cancelled(hand: Option<LogRecord>)
      requires Valid() && (model.task.pc.Getting? || model.task.pc.AwaitingWrite?)
      requires hand == if model.task.pc.AwaitingWrite? then Some(model.task.pc.record) else None
      modifies this, executor
      ensures executor == old(executor) && Valid() && InTeardown() && model == Apply(old(model), Cancel)
      ensures model.task.cancelled
      ensures if hand.Some? then AckedOnce(old(acks), acks, hand.value, P.CutOff) else acks == old(acks)
    {
      hide IsRun, Exec;
      executor.TakeBack();
      if hand.Some? {
        TaskDone(hand.value, P.CutOff);
      }
      BeginFinally();
      Took(Cancel);
    }

    method PassTest()
      requires Valid() && model.task.pc.LoopHead? && (running || items != [])
      modifies this
      ensures executor == old(executor) && Valid() && model == Apply(old(model), LoopTest)
      ensures model == old(model).(task := old(model).task.(pc := Getting))
    {
      hide IsRun, Exec;
      Took(LoopTest);
    }

    /** `get` times out, or brings a record, which is formatted and handed to the executor in the same step. */
    method Fetch(script: seq<Turn>, used: nat) returns (now: nat, flow: Flow, record: Option<LogRecord>)
      requires Valid() && model.task.pc.Getting?
      requires used <= |script|
      modifies this, executor
      ensures executor == old(executor) && Valid() && used <= now && now <= |script|
      ensures match flow
        case Proceed => used < now && record.Some? && model.task.pc == AwaitingWrite(record.value)
        case Continue => used < now && model.task.pc.LoopHead?
        case Interrupted => model.task.cancelled && InTeardown() && CancelledAt(script, now)
        case Suspended => now == |script|
      ensures flow.Proceed? ==>
        && used < |script| && script[used].wakeup == Arrives(Text) && acks == old(acks)
        && (old(items) != [] ==> record == Some(old(items)[0]))
      ensures flow.Suspended? ==> acks == old(acks)
      ensures !flow.Interrupted? ==> model.task.cancelled == old(model).task.cancelled
      ensures used == |script| ==> flow.Suspended?
      ensures used < |script| ==>
        now == used + 1 && FetchedFrom(Performed(old(model), script[used].meanwhile).queue.items, items,
                                       script[used].wakeup, flow, record, old(acks), acks)
      ensures used < |script| && script[used].wakeup.Arrives? && old(items) != [] ==>
        !flow.Interrupted? && old(items)[1..] <= items && (flow.Proceed? <==> script[used].wakeup.rendering.Text?)
      ensures used < |script| && script[used].wakeup.Arrives? && old(items) != [] && !flow.Proceed? ==>
        AckedOnce(old(acks), acks, old(items)[0], Unwritten(script[used].wakeup.rendering))
      ensures flow.Proceed? ==>
        var t := Performed(old(model), script[used].meanwhile);
        Enabled(t, GetRecord(Text)) && model == Apply(t, GetRecord(Text))
    {
      hide IsRun, Exec;
      var wakeup;
      now, wakeup := Await(script, used);
      flow, record := Suspended, None;
      if wakeup == None {
      } else if wakeup.value.IsCancelled? {
        Cancelled(None);
        flow := Interrupted;
      } else if wakeup.value.Arrives? && items != [] {
        flow, record := Dispatch(wakeup.value.rendering);
      } else {
        Took(GetTimeout);
        flow := Continue;
      }
    }

    /** Format the oldest record; without a text it is acknowledged at once. */
    method Dispatch(rendering: Rendering) returns (flow: Flow, record: Option<LogRecord>)
      requires Valid() && model.task.pc.Getting? && items != []
      modifies this, executor
      ensures executor == old(executor) && Valid() && model == Apply(old(model), GetRecord(rendering))
      ensures if rendering.Text? then flow == Proceed && record == Some(old(items)[0])
              else flow == Continue && record == None
      ensures if rendering.Text? then acks == old(acks)
              else AckedOnce(old(acks), acks, old(items)[0], Unwritten(rendering))
      ensures items == old(items)[1..]
    {
      hide IsRun, Exec;
      var r := items[0];
      items := items[1..];
      if rendering.Text? {
        executor.Run(Write(r, cycle));
        flow, record := Proceed, Some(r);
      } else {
        TaskDone(r, if rendering.NoFormatter? then P.Skipped else P.Reported);
        flow, record := Continue, None;
      }
      Took(GetRecord(rendering));
    }

    /** `await executor.run(...)` of one write, its report when it fails, and the acknowledgement either way. */
    method AwaitWrite(script: seq<Turn>, used: nat, record: LogRecord) returns (now: nat, flow: Flow)
      requires Valid() && model.task.pc == AwaitingWrite(record)
      requires used <= |script|
      modifies this, executor
      ensures executor == old(executor) && Valid() && used <= now && now <= |script|
      ensures flow.Continue? || flow.Interrupted? || flow.Suspended?
      ensures flow.Continue? ==> model.task.pc.LoopHead?
      ensures flow.Interrupted? ==> model.task.cancelled && InTeardown() && CancelledAt(script, now)
      ensures flow.Suspended? ==> now == |script|
      ensures WriteEnded(flow, old(model), model, old(acks), acks, record)
      ensures used < |script| && BackAtOnce(old(model), script[used]) ==>
        flow.Continue? && now == used + 1 && model == ResumedFrom(Performed(old(model), script[used].meanwhile), record)
    {
      hide IsRun, Exec;
      now, flow := used, Proceed;
      while flow.Proceed? && now < |script|
        invariant executor == old(executor) && Valid() && used <= now && now <= |script|
        invariant flow.Proceed? || flow.Continue? || flow.Interrupted?
        invariant flow.Proceed? ==> model.task.pc == AwaitingWrite(record)
        invariant flow.Continue? ==> model.task.pc.LoopHead?
        invariant flow.Interrupted? ==> model.task.cancelled && InTeardown() && CancelledAt(script, now)
        invariant WriteEnded(flow, old(model), model, old(acks), acks, record)
        invariant now == used ==> model == old(model) && flow.Proceed?
        invariant used < now && BackAtOnce(old(model), script[used]) ==>
          flow.Continue? && now == used + 1 && model == ResumedFrom(Performed(old(model), script[used].meanwhile), record)
        decreases |script| - now
      {
        now, flow := AwaitWriteOnce(script, now, record);
      }
      if flow.Proceed? {
        flow := Suspended;
      }
    }

    method AwaitWriteOnce(script: seq<Turn>, used: nat, record: LogRecord) returns (now: nat, flow: Flow)
      requires Valid() && model.task.pc == AwaitingWrite(record) && used < |script|
      requires used <= |script|
      modifies this, executor
      ensures executor == old(executor) && Valid() && now == used + 1 && now <= |script|
      ensures flow.Proceed? || flow.Continue? || flow.Interrupted?
      ensures flow.Proceed? ==> model.task.pc == AwaitingWrite(record)
      ensures flow.Continue? ==> model.task.pc.LoopHead?
      ensures flow.Interrupted? ==> model.task.cancelled && InTeardown() && CancelledAt(script, now)
      ensures WriteEnded(flow, old(model), model, old(acks), acks, record)
      ensures
        var t := Performed(old(model), script[used].meanwhile);
        && flow == (if script[used].wakeup.IsCancelled? then Interrupted else if t.exec.result.Some? then Continue else Proceed)
        && (flow.Continue? ==> model == ResumedFrom(t, record))
    {
      hide IsRun, Exec;
      var wakeup;
      now, wakeup := Await(script, used);
      flow := Proceed;
      if wakeup.value.IsCancelled? {
        Cancelled(Some(record));
        flow := Interrupted;
      } else if executor.result.Some? {
        WriteCameBack(record);
        flow := Continue;
      }
    }

    /** The write has a result: the record was delivered, or its failure is reported. */
    method WriteCameBack(record: LogRecord)
      requires Valid() && model.task.pc == AwaitingWrite(record) && executor.result.Some?
      modifies this, executor
      ensures executor == old(executor) && Valid() && model.task == old(model).task.(pc := LoopHead)
      ensures AckedOnce(old(acks), acks, record, if old(executor.result.value) then P.Delivered else P.Reported)
      ensures model == ResumedFrom(old(model), record)
    {
      hide IsRun, Exec;
      TaskDone(record, if executor.result.value then P.Delivered else P.Reported);
      executor.Consume();
      Took(ResumeWrite);
    }

    /** The loop test failed: the worker ends by itself. */
    method LeaveLoop()
      requires Valid() && model.task.pc.LoopHead? && !running && items == []
      modifies this, executor
      ensures executor == old(executor) && Valid() && InTeardown() && model.task.cancelled == old(model).task.cancelled
      ensures model == EnterFinally(old(model))
    {
      hide IsRun, Exec;
      BeginFinally();
      Took(LoopTest);
    }

    // ----- the teardown -----

    /** `await executor.run(self._close_stream)`; a cancellation here abandons the executor. */
    method AwaitClose(script: seq<Turn>, used: nat) returns (now: nat, flow: Flow)
      requires Valid() && model.task.pc.AwaitingClose? && used <= |script|
      modifies this, executor
      ensures Valid() && used <= now && (executor == old(executor) || fresh(executor))
      ensures match flow
        case Proceed => model.task.pc.ShuttingDown? && model.task.cancelled == old(model).task.cancelled
        case Interrupted => model.task.pc.Ended? && model.task.cancelled && CancelledAt(script, now)
        case Suspended => now == |script|
        case Continue => false
      ensures now <= |script| && (flow.Suspended? ==> model.task.cancelled == old(model).task.cancelled)
      ensures acks == old(acks)
      ensures used < |script| && BackAtOnce(old(model), script[used]) ==>
        flow.Proceed? && now == used + 1 && model == Closed(Performed(old(model), script[used].meanwhile))
    {
      hide IsRun, Exec;
      now, flow := used, Continue;
      while flow.Continue? && now < |script|
        invariant Valid() && used <= now && now <= |script|
        invariant executor == old(executor) || (fresh(executor) && !flow.Continue?)
        invariant flow.Continue? ==> model.task.pc.AwaitingClose? && model.task.cancelled == old(model).task.cancelled
        invariant flow.Proceed? ==> model.task.pc.ShuttingDown? && model.task.cancelled == old(model).task.cancelled
        invariant flow.Interrupted? ==> model.task.pc.Ended? && model.task.cancelled && CancelledAt(script, now)
        invariant !flow.Suspended? && acks == old(acks)
        invariant now == used ==> model == old(model) && flow.Continue?
        invariant used < now && BackAtOnce(old(model), script[used]) ==>
          flow.Proceed? && now == used + 1 && model == Closed(Performed(old(model), script[used].meanwhile))
        decreases |script| - now
      {
        now, flow := AwaitCloseOnce(script, now);
      }
      if flow.Continue? {
        flow := Suspended;
      }
    }

    method AwaitCloseOnce(script: seq<Turn>, used: nat) returns (now: nat, flow: Flow)
      requires Valid() && model.task.pc.AwaitingClose? && used < |script|
      requires used <= |script|
      modifies this, executor
      ensures Valid() && now == used + 1 && now <= |script| && !flow.Suspended?
      ensures executor == old(executor) || (fresh(executor) && !flow.Continue?)
      ensures flow.Continue? ==> model.task.pc.AwaitingClose? && model.task.cancelled == old(model).task.cancelled
      ensures flow.Proceed? ==> model.task.pc.ShuttingDown? && model.task.cancelled == old(model).task.cancelled
      ensures flow.Interrupted? ==> model.task.pc.Ended? && model.task.cancelled && CancelledAt(script, now)
      ensures acks == old(acks)
      ensures
        var t := Performed(old(model), script[used].meanwhile);
        && flow == (if script[used].wakeup.IsCancelled? then Interrupted else if t.exec.result.Some? then Proceed else Continue)
        && (flow.Proceed? ==> model == Closed(t))
    {
      hide IsRun, Exec;
      var wakeup;
      now, wakeup := Await(script, used);
      flow := Continue;
      if wakeup.value.IsCancelled? {
        CloseCutOff();
        flow := Interrupted;
      } else if executor.result.Some? {
        Took(ResumeClose);
        flow := Proceed;
      }
    }

    /** The cancellation ends the worker at once: `shutdown` is skipped and the executor left to its own. */
    method CloseCutOff()
      requires Valid() && model.task.pc.AwaitingClose?
      modifies this
      ensures Valid() && fresh(executor) && model == Apply(old(model), Cancel)
      ensures model.task.pc.Ended? && model.task.cancelled && acks == old(acks)
    {
      hide IsRun, Exec;
      if !executor.stage.Idle? {
        strays := strays + [executor.stage];
      }
      executor := new WriteExecutor();
      Took(Cancel);
    }

    /** What the executor's thread does next, when it has work; `ok` decides how I/O goes. */
    function NextThreadStep(ok: bool): (a: Action)
      reads this, executor
      requires !Quiescent(Executor(executor.pending, executor.stage, false, None))
      ensures OfThread(a) && IsReady(a) && !a.StrayStep? && (a.OpenStep? || a.WriteStep? ==> a.ok == ok)
    {
      match executor.stage
      case Idle => Action.TakeOp
      case Opening(_, _) => OpenStep(ok)
      case Writing(_, _, _) => WriteStep(ok)
      case Closing => CloseStep
      case Resetting => ResetStep
    }

    /** `shutdown(wait=True)` blocks until the thread has run out of work, which it does, however the I/O goes. */
    method ShutDown(luck: nat -> bool)
      requires Valid() && model.task.pc.ShuttingDown?
      modifies this, executor
      ensures executor == old(executor) && Valid() && model.task.pc.Ended? && !executor.created
      ensures model.task.cancelled == old(model).task.cancelled
      ensures running == old(running) && items == old(items) && acks == old(acks)
      ensures Quiescent(old(executor.Contents())) ==> model == Apply(old(model), Shutdown)
      ensures sink.Stdout? && IsWrite(old(executor.stage)) && Lucky(luck) ==>
        written == old(written) + [Entry(old(executor.stage).record, 0, old(executor.stage).cycle)]
      ensures sink.Owned? && NoOpeningAbandoned() ==> stream == None
    {
      hide IsRun, Exec, Never;
      FinishWork(luck);
      ghost var before := trace;
      StreamReleased();
      Release();
      if NoOpeningAbandoned() {
        NeverLast(Initial(sink), trace, CutOpening);
        assert trace[..|trace| - 1] == before;
      }
    }

    /** The thread does all the work it has, `luck` deciding how its calls go. */
    method FinishWork(luck: nat -> bool)
      requires Valid() && model.task.pc.ShuttingDown?
      modifies this, executor
      ensures executor == old(executor) && Valid() && model.task == old(model).task && Quiescent(executor.Contents())
      ensures running == old(running) && items == old(items) && acks == old(acks)
      ensures Quiescent(old(executor.Contents())) ==> model == old(model)
      ensures sink.Stdout? && IsWrite(old(executor.stage)) && Lucky(luck) ==>
        written == old(written) + [Entry(old(executor.stage).record, 0, old(executor.stage).cycle)]
    {
      hide IsRun, Exec;
      var k := 0;
      ghost var left := sink.Stdout? && IsWrite(executor.stage) && Lucky(luck);
      LeftWrite();
      while executor.pending != [] || !executor.stage.Idle?
        invariant executor == old(executor) && Valid() && model.task == old(model).task && model.queue == old(model).queue
        invariant acks == old(acks) && (Quiescent(old(executor.Contents())) ==> model == old(model))
        invariant left ==> FinishesWrite(old(model), model)
        decreases WorkLeft(executor.Contents())
      {
        var a := NextThreadStep(luck(k));
        ThreadWorks(model, a);
        if left {
          WriteNearsEnd(old(model), model, a);
        }
        ThreadFrame(model, a);
        ThreadStep(a);
        k := k + 1;
      }
    }

    lemma LeftWrite()
      requires Valid() && model.task.pc.ShuttingDown?
      ensures sink.Stdout? && IsWrite(model.exec.stage) ==> FinishesWrite(model, model)
    {
      hide IsRun, Exec;
      ValidInv();
    }

    /** In no cycle so far was a write cut off before it had opened the stream, and then its close as well. */
    ghost predicate NoOpeningAbandoned()
      requires Traced()
      reads this
    {
      Never(Initial(sink), trace, CutOpening)
    }

    lemma StreamReleased()
      requires Valid() && model.task.pc.ShuttingDown?
      ensures sink.Owned? && NoOpeningAbandoned() ==> stream == None
    {
      hide IsRun, Exec, Never;
      if sink.Owned? && NoOpeningAbandoned() {
        ReleaseAlways(trace);
      }
    }

    lemma ThreadWorks(s: State, a: Action)
      requires OfThread(a) && !a.StrayStep? && Enabled(s, a)
      ensures WorkLeft(Apply(s, a).exec) < WorkLeft(s.exec)
    {
    }

    method Release()
      requires Valid() && model.task.pc.ShuttingDown? && Quiescent(executor.Contents())
      modifies this, executor
      ensures executor == old(executor) && Valid() && !executor.created && model == Apply(old(model), Shutdown)
      ensures trace == old(trace) + [Shutdown]
    {
      hide IsRun, Exec;
      executor.Release();
      Took(Shutdown);
    }

    // ----- `_worker` -----

    /** One turn of the loop behind a successful test. */
    method Iterate(script: seq<Turn>, used: nat) returns (now: nat, flow: Flow)
      requires Valid() && model.task.pc.LoopHead? && (running || items != [])
      requires used <= |script|
      modifies this, executor
      ensures executor == old(executor) && Valid() && used <= now && now <= |script|
      ensures flow.Continue? || flow.Interrupted? || flow.Suspended?
      ensures flow.Continue? ==> used < now && model.task.pc.LoopHead?
      ensures flow.Interrupted? ==> model.task.cancelled && InTeardown() && CancelledAt(script, now)
      ensures flow.Suspended? ==> now == |script|
      ensures !flow.Interrupted? ==> model.task.cancelled == old(model).task.cancelled
      ensures AllWell(script, used) && used + 2 <= |script| && old(items) != [] && old(strays) == [] ==>
        && flow.Continue? && now == used + 2 && items == old(items)[1..] && running == old(running) && cycle == old(cycle)
        && AckedOnce(old(acks), acks, old(items)[0], P.Delivered) && strays == [] && Handle() == old(Handle())
        && written == old(written) + [Entry(old(items)[0], Handle(), cycle)]
    {
      hide IsRun, Exec, Meantime, InTwoTurns, AfterTwoTurns, Apply, Enabled, Inv;
      if AllWell(script, used) && used + 2 <= |script| && items != [] && strays == [] {
        ValidInv();
        WholeTurn(model);
        StillWell(script, used, used);
        StillWell(script, used, used + 1);
      }
      PassTest();
      now, flow := FetchAndWrite(script, used);
    }

    method FetchAndWrite(script: seq<Turn>, used: nat) returns (now: nat, flow: Flow)
      requires Valid() && model.task.pc.Getting?
      requires used <= |script|
      modifies this, executor
      ensures executor == old(executor) && Valid() && used <= now && now <= |script|
      ensures flow.Continue? || flow.Interrupted? || flow.Suspended?
      ensures flow.Continue? ==> used < now && model.task.pc.LoopHead?
      ensures flow.Interrupted? ==> model.task.cancelled && InTeardown() && CancelledAt(script, now)
      ensures flow.Suspended? ==> now == |script|
      ensures !flow.Interrupted? ==> model.task.cancelled == old(model).task.cancelled
      ensures used + 2 <= |script| && InTwoTurns(old(model), script[used], script[used + 1]) ==>
        flow.Continue? && now == used + 2 && model == AfterTwoTurns(old(model), script[used], script[used + 1])
    {
      hide IsRun, Exec, Meantime, Performed, Apply, ResumedFrom;
      var record;
      now, flow, record := Fetch(script, used);
      if flow.Proceed? {
        now, flow := AwaitWrite(script, now, record.value);
      }
    }

    /** The handle of the next text: the host's, the open one, or the next one to be opened. */
    function Handle(): nat
      reads this
    {
      if !sink.Owned? then 0 else if stream.Some? then stream.value else openCount + 1
    }

    /** The `while` loop; it ends in the teardown unless the script runs out. */
    method Loop(script: seq<Turn>) returns (used: nat, suspended: bool)
      requires Valid() && model.task.pc.LoopHead?
      modifies this, executor
      ensures executor == old(executor) && Valid() && used <= |script|
      ensures if suspended then used == |script| else InTeardown()
      ensures used <= |script| && (model.task.cancelled == old(model).task.cancelled || CancelledAt(script, used))
      ensures AllWell(script, 0) && old(strays) == [] && !old(running) && 2 * |old(items)| < |script| ==>
        && !suspended && used == 2 * |old(items)| && items == [] && script[used] == GOOD_TURN
        && acks == old(acks) + I.DeliveredAcks(old(items)) && Quiet(model)
        && written == old(written) + Entries(old(items), old(Handle()), old(cycle))
    {
      hide IsRun, Exec, Meantime, AllWell, Quiet;
      var flow := Continue;
      used := 0;
      ghost var n: nat, well := 0, AllWell(script, 0) && strays == [] && !running && 2 * |items| < |script|;
      while flow.Continue? && (running || items != [])
        invariant executor == old(executor) && Valid() && used <= |script|
        invariant flow.Continue? || flow.Interrupted? || flow.Suspended?
        invariant flow.Continue? ==> model.task.pc.LoopHead?
        invariant flow.Interrupted? ==> model.task.cancelled && InTeardown() && CancelledAt(script, used)
        invariant !flow.Interrupted? ==> model.task.cancelled == old(model).task.cancelled
        invariant flow.Suspended? ==> used == |script|
        invariant well ==> AllWell(script, used) && used == 2 * n && flow.Continue? && !running && strays == []
        invariant well ==> n <= |old(items)| && items == old(items)[n..] && Handle() == old(Handle()) && cycle == old(cycle)
        invariant well ==> acks == old(acks) + I.DeliveredAcks(old(items)[..n])
        invariant well ==> written == old(written) + Entries(old(items)[..n], old(Handle()), old(cycle))
        decreases flow.Continue?, |script| - used
      {
        ghost var before := used;
        used, flow := Iterate(script, used);
        if well {
          StillWell(script, before, used);
          I.DeliveredNext(old(items), n);
          EntriesNext(old(items), n, old(Handle()), cycle);
          n := n + 1;
        }
      }
      assert well ==> old(items)[..n] == old(items);
      if well {
        StillWell(script, used, used);
      }
      suspended := flow.Suspended?;
      if flow.Continue? {
        ToTeardown();
        LeaveLoop();
      }
    }

    lemma ClosesQuietly(s: State)
      ensures Quiet(s) && s.sink.Stdout? ==> Quiescent(s.exec)
      ensures Quiet(s) && !s.sink.Stdout? && s.task.pc.AwaitingClose? ==>
        && BackAtOnce(s, GOOD_TURN) && var t := Performed(s, GOOD_TURN.meanwhile);
        && Quiescent(t.exec) && t == s.(exec := t.exec, disk := t.disk) && t.disk.written == s.disk.written
    {
      if Quiet(s) && !s.sink.Stdout? && s.task.pc.AwaitingClose? {
        ClosesWell(s);
      }
    }

    /** What the teardown has to do when the loop is left by its test. */
    ghost predicate Quiet(s: State) {
      if s.sink.Stdout? then Quiescent(s.exec) else Queued(s.exec, Close) && s.exec.stage.Idle?
    }

    lemma ToTeardown()
      requires Valid() && model.task.pc.LoopHead?
      ensures Quiet(EnterFinally(model))
    {
      hide IsRun, Exec;
      ValidInv();
    }

    /**
     * `_worker`, from its first loop test on.  `ended` is false when the script runs out first; `cut` tells that a
     * cancellation hit the close.  A worker that ended has acknowledged every record it took out of the queue; one
     * that was not cancelled has emptied its queue; and unless it was cut it has released an owned stream.  With a sink
     * that takes every text, a worker told to stop writes and delivers all that is queued, in order, and ends.
     */
    method Worker(script: seq<Turn>, luck: nat -> bool) returns (used: nat, ended: bool, cut: bool)
      requires Valid() && model.task.pc.LoopHead?
      modifies this, executor
      ensures Valid() && (executor == old(executor) || fresh(executor)) && (!ended ==> used == |script|)
      ensures ended ==> model.task.pc.Ended? && I.Acked(acks) == model.past.dequeued && unfinished == |items|
      ensures ended && !model.task.cancelled ==> items == [] && unfinished == 0 && !running
      ensures ended && !cut && sink.Owned? && NoOpeningAbandoned() ==> stream == None
      ensures cut ==> ended && model.task.cancelled && !sink.Stdout?
      ensures model.task.cancelled ==> old(model).task.cancelled || CancelledWithin(script, used)
      ensures AllWell(script, 0) && old(strays) == [] && !old(running) && 2 * |old(items)| < |script| ==>
        && ended && !cut && items == [] && acks == old(acks) + I.DeliveredAcks(old(items))
        && written == old(written) + Entries(old(items), old(Handle()), old(cycle))
    {
      hide IsRun, Exec, Meantime, AllWell, Quiet;
      var suspended;
      used, suspended := Loop(script);
      ghost var at, inLoop := used, model.task.cancelled;
      ended, cut := !suspended, false;
      ClosesQuietly(model);
      if ended && !sink.Stdout? {
        var flow;
        used, flow := AwaitClose(script, used);
        ended, cut := !flow.Suspended?, flow.Interrupted?;
      }
      if ended && !cut {
        BeforeShutdown();
        ShutDown(luck);
      }
      if inLoop && !old(model).task.cancelled {
        CancelledBefore(script, at, used);
      } else if cut {
        CancelledBefore(script, used, used);
      }
      EndedWell();
    }

    lemma BeforeShutdown()
      requires Valid() && model.task.pc.ShuttingDown?
      ensures !model.task.cancelled ==> !running && items == []
    {
      hide IsRun, Exec;
      ValidInv();
    }

    lemma EndedWell()
      requires Valid()
      ensures model.task.pc.Ended? ==>
        && I.Acked(acks) == model.past.dequeued && unfinished == |items|
        && (!model.task.cancelled ==> items == [] && unfinished == 0 && !running)
    {
      hide IsRun, Exec;
      ValidInv();
      assert I.Acked(acks) + [] == I.Acked(acks);
    }
  }
}
