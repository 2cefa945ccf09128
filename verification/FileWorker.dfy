/**
 * The file worker (`backend/file.py`) and the console worker (`backend/console.py`) with the single-thread
 * executor they write through (`_executor.py`), as a step machine of two actors: the coroutine, which can be
 * cancelled at every await, in its teardown once more, and the executor's thread, which runs one operation at a
 * time, each in the two steps between which another thread could get in.  An executor abandoned by a cancelled
 * worker keeps running the operation it has begun; it is then a stray.
 */
module FileWorker {
  import opened Records
  import P = Pipeline

  /** A file the backend opens itself, one injected by the host, or standard output. */
  datatype Sink = Owned | Injected | Stdout

  datatype Pc =
    | NotStarted
    | LoopHead
    | Getting
    | AwaitingWrite(record: LogRecord)
    | AwaitingClose
    | ShuttingDown
    | Ended

  datatype Task = Task(pc: Pc, running: bool, cancelled: bool, cycle: nat)

  /** An operation submitted to the executor. */
  datatype Op = Write(record: LogRecord, cycle: nat) | Close

  /** What the executor's thread is about to do. */
  datatype Stage =
    | Idle
    | Opening(record: LogRecord, cycle: nat)
    | Writing(record: LogRecord, cycle: nat, handle: nat)
    | Closing
    | Resetting

  /**
   * `wanted` tells whether the coroutine still awaits the running operation; `result` is what the awaited
   * operation has come back with, and whether it succeeded.
   */
  datatype Executor = Executor(pending: seq<Op>, stage: Stage, wanted: bool, result: Option<bool>)

  /** The text of `record`, dequeued in start cycle `cycle`, written to `handle`. */
  datatype Entry = Entry(record: LogRecord, handle: nat, cycle: nat)

  /** `_stream`, the handles ever opened (1, 2, ...; 0 is the host's), what was written, and writes on a closed handle. */
  datatype Disk = Disk(
    stream: Option<nat>,
    openCount: nat,
    closed: set<nat>,
    written: seq<Entry>,
    spoiled: seq<Entry>)

  datatype Queue = Queue(items: seq<LogRecord>, unfinished: int)

  datatype History = History(
    puts: seq<LogRecord>,
    removed: seq<LogRecord>,
    dequeued: seq<LogRecord>,
    acks: seq<P.Ack>,
    cycleStart: nat)

  datatype State = State(
    sink: Sink,
    task: Task,
    exec: Executor,
    strays: seq<Stage>,
    disk: Disk,
    queue: Queue,
    past: History)

  /** What formatting a dequeued record came to. */
  datatype Rendering = Text | NoFormatter | FormatError

  datatype Action =
    | Start
    | Put(record: LogRecord)
    | ClearRunning
    | Discard
    | LoopTest
    | GetTimeout
    | GetRecord(rendering: Rendering)
    | ResumeWrite
    | ResumeClose
    | Shutdown
    | Cancel
    | TakeOp
    | OpenStep(ok: bool)
    | WriteStep(ok: bool)
    | CloseStep
    | ResetStep
    | StrayStep(k: nat, ok: bool)

  const FRESH_EXECUTOR := Executor([], Idle, false, None)

  function Initial(sink: Sink): State {
    State(sink, Task(NotStarted, false, false, 0), FRESH_EXECUTOR, [],
          Disk(if sink.Injected? then Some(0) else None, 0, {}, [], []),
          Queue([], 0), History([], [], [], [], 0))
  }

  predicate AtAwait(pc: Pc) {
    pc.Getting? || pc.AwaitingWrite? || pc.AwaitingClose?
  }

  /** Nothing is queued in or running on the executor. */
  predicate Quiescent(e: Executor) {
    e.pending == [] && e.stage.Idle?
  }

  predicate Enabled(s: State, a: Action) {
    match a
    case Start => (s.task.pc.NotStarted? || s.task.pc.Ended?) && !s.task.running && s.queue.items == []
    case Put(_) => s.task.running
    case ClearRunning => true
    case Discard => s.task.pc.Ended? && s.queue.items != []
    case LoopTest => s.task.pc.LoopHead?
    case GetTimeout => s.task.pc.Getting?
    case GetRecord(_) => s.task.pc.Getting? && s.queue.items != []
    case ResumeWrite => s.task.pc.AwaitingWrite? && s.exec.result.Some?
    case ResumeClose => s.task.pc.AwaitingClose? && s.exec.result.Some?
    case Shutdown => s.task.pc.ShuttingDown? && Quiescent(s.exec)
    case Cancel => AtAwait(s.task.pc)
    case TakeOp => s.exec.pending != [] && s.exec.stage.Idle?
    case OpenStep(_) => s.exec.stage.Opening?
    case WriteStep(_) => s.exec.stage.Writing?
    case CloseStep => s.exec.stage.Closing?
    case ResetStep => s.exec.stage.Resetting?
    case StrayStep(k, _) => k < |s.strays|
  }

  // ----- the executor's thread -----

  /** The running operation is over; its result goes to the coroutine if that still waits. */
  function Finish(e: Executor, ok: bool): Executor {
    e.(stage := Idle, wanted := false, result := if e.wanted then Some(ok) else e.result)
  }

  function Begin(op: Op): Stage {
    match op
    case Write(r, cycle) => Opening(r, cycle)
    case Close => Closing
  }

  /** `_open_stream`: `ok` tells whether `open()` would succeed. */
  function Open(sink: Sink, d: Disk, ok: bool): Disk {
    match sink
    case Owned => if d.stream.None? && ok then d.(stream := Some(d.openCount + 1), openCount := d.openCount + 1) else d
    case Injected => d.(stream := Some(0))
    case Stdout => d
  }

  /** The handle a write goes to after `_open_stream`, if that succeeded. */
  function Target(sink: Sink, d: Disk): Option<nat> {
    if sink.Stdout? then Some(0) else d.stream
  }

  function AfterOpen(s: State, ok: bool): State
    requires s.exec.stage.Opening?
  {
    var d := Open(s.sink, s.disk, ok);
    var target := Target(s.sink, d);
    if target.Some? then s.(disk := d, exec := s.exec.(stage := Writing(s.exec.stage.record, s.exec.stage.cycle, target.value)))
    else s.(disk := d, exec := Finish(s.exec, false))
  }

  function EntryOf(stage: Stage): Entry
    requires stage.Writing?
  {
    Entry(stage.record, stage.handle, stage.cycle)
  }

  /** `write` and `flush` of one text; `ok` tells whether they would succeed on an open handle. */
  function Wrote(d: Disk, e: Entry, ok: bool): Disk {
    if e.handle in d.closed then d.(spoiled := d.spoiled + [e])
    else if ok then d.(written := d.written + [e])
    else d
  }

  function AfterWrite(s: State, ok: bool): State
    requires s.exec.stage.Writing?
  {
    var e := EntryOf(s.exec.stage);
    s.(disk := Wrote(s.disk, e, ok), exec := Finish(s.exec, ok && e.handle !in s.disk.closed))
  }

  /** The first half of `_close_stream`: whether there is something to close, and closing it. */
  predicate HasStream(sink: Sink, d: Disk) {
    sink.Owned? && d.stream.Some?
  }

  function CloseHandle(d: Disk): Disk
    requires d.stream.Some?
  {
    d.(closed := d.closed + {d.stream.value})
  }

  /** What the next step of a stray does to the disk, and what is left for it to do. */
  function StrayOnDisk(sink: Sink, d: Disk, stage: Stage, ok: bool): Disk {
    match stage
    case Idle => d
    case Opening(_, _) => Open(sink, d, ok)
    case Writing(_, _, _) => Wrote(d, EntryOf(stage), ok)
    case Closing => if HasStream(sink, d) then CloseHandle(d) else d
    case Resetting => d.(stream := None)
  }

  function StrayAfter(sink: Sink, d: Disk, stage: Stage, ok: bool): Stage {
    match stage
    case Opening(r, cycle) =>
      var target := Target(sink, Open(sink, d, ok));
      if target.Some? then Writing(r, cycle, target.value) else Idle
    case Closing => if HasStream(sink, d) then Resetting else Idle
    case _ => Idle
  }

  function StrayStepped(s: State, k: nat, ok: bool): State
    requires k < |s.strays|
  {
    s.(disk := StrayOnDisk(s.sink, s.disk, s.strays[k], ok), strays := s.strays[k := StrayAfter(s.sink, s.disk, s.strays[k], ok)])
  }

  // ----- the coroutine -----

  function Submit(e: Executor, op: Op): Executor {
    e.(pending := e.pending + [op], result := None)
  }

  function Acknowledge(s: State, record: LogRecord, outcome: P.Outcome): State {
    s.(queue := s.queue.(unfinished := s.queue.unfinished - 1),
       past := s.past.(acks := s.past.acks + [P.Ack(record, outcome)]))
  }

  /** The worker's outer `finally`: a close behind whatever still runs, or for standard output only the shutdown. */
  function EnterFinally(s: State): State {
    if s.sink.Stdout? then s.(task := s.task.(pc := ShuttingDown))
    else s.(task := s.task.(pc := AwaitingClose), exec := Submit(s.exec, Close))
  }

  /** A cancelled await takes back its operation if that has not begun, and abandons it otherwise. */
  function Withdraw(e: Executor): Executor {
    e.(pending := [], wanted := false, result := None)
  }

  function Dequeue(s: State, rendering: Rendering): State
    requires s.queue.items != []
  {
    var r := s.queue.items[0];
    var t := s.(queue := s.queue.(items := s.queue.items[1..]),
                past := s.past.(removed := s.past.removed + [r], dequeued := s.past.dequeued + [r]));
    match rendering
    case Text => t.(task := t.task.(pc := AwaitingWrite(r)), exec := Submit(t.exec, Write(r, t.task.cycle)))
    case NoFormatter => Acknowledge(t.(task := t.task.(pc := LoopHead)), r, P.Skipped)
    case FormatError => Acknowledge(t.(task := t.task.(pc := LoopHead)), r, P.Reported)
  }

  /** A cancelled close is the worker's last await: what it had begun goes on as a stray. */
  function AbandonClose(s: State): State {
    s.(task := s.task.(cancelled := true, pc := Ended), exec := FRESH_EXECUTOR,
       strays := if s.exec.stage.Idle? then s.strays else s.strays + [s.exec.stage])
  }

  function CancelStep(s: State): State
    requires AtAwait(s.task.pc)
  {
    if s.task.pc.AwaitingClose? then AbandonClose(s)
    else
      var t := s.(task := s.task.(cancelled := true), exec := Withdraw(s.exec));
      EnterFinally(if s.task.pc.AwaitingWrite? then Acknowledge(t, s.task.pc.record, P.CutOff) else t)
  }

  function Apply(s: State, a: Action): State
    requires Enabled(s, a)
  {
    match a
    case Start =>
      s.(task := Task(LoopHead, true, false, s.task.cycle + 1), exec := FRESH_EXECUTOR,
         past := s.past.(cycleStart := |s.past.acks|))
    case Put(r) =>
      s.(queue := Queue(s.queue.items + [r], s.queue.unfinished + 1), past := s.past.(puts := s.past.puts + [r]))
    case ClearRunning => s.(task := s.task.(running := false))
    case Discard =>
      s.(queue := Queue(s.queue.items[1..], s.queue.unfinished - 1),
         past := s.past.(removed := s.past.removed + [s.queue.items[0]]))
    case LoopTest =>
      if s.task.running || s.queue.items != [] then s.(task := s.task.(pc := Getting)) else EnterFinally(s)
    case GetTimeout => s.(task := s.task.(pc := LoopHead))
    case GetRecord(rendering) => Dequeue(s, rendering)
    case ResumeWrite =>
      Acknowledge(s.(task := s.task.(pc := LoopHead), exec := s.exec.(result := None)), s.task.pc.record,
                  if s.exec.result.value then P.Delivered else P.Reported)
    case ResumeClose => s.(task := s.task.(pc := ShuttingDown))
    case Shutdown => s.(task := s.task.(pc := Ended), exec := FRESH_EXECUTOR)
    case Cancel => CancelStep(s)
    case TakeOp =>
      s.(exec := s.exec.(pending := s.exec.pending[1..], stage := Begin(s.exec.pending[0]), wanted := true))
    case OpenStep(ok) => AfterOpen(s, ok)
    case WriteStep(ok) => AfterWrite(s, ok)
    case CloseStep =>
      if HasStream(s.sink, s.disk) then s.(disk := CloseHandle(s.disk), exec := s.exec.(stage := Resetting))
      else s.(exec := Finish(s.exec, true))
    case ResetStep => s.(disk := s.disk.(stream := None), exec := Finish(s.exec, true))
    case StrayStep(k, ok) => StrayStepped(s, k, ok)
  }

  // ----- runs -----

  predicate IsRun(s: State, acts: seq<Action>)
    decreases |acts|, 0
  {
    acts == [] || (IsRun(s, acts[..|acts| - 1]) && Enabled(Exec(s, acts[..|acts| - 1]), acts[|acts| - 1]))
  }

  function Exec(s: State, acts: seq<Action>): State
    requires IsRun(s, acts)
    decreases |acts|, 1
  {
    if acts == [] then s
    else Apply(Exec(s, acts[..|acts| - 1]), acts[|acts| - 1])
  }

  lemma NoSteps(s: State)
    ensures IsRun(s, []) && Exec(s, []) == s
  {
  }

  lemma RunSnoc(s: State, acts: seq<Action>, a: Action)
    requires IsRun(s, acts) && Enabled(Exec(s, acts), a)
    ensures IsRun(s, acts + [a]) && Exec(s, acts + [a]) == Apply(Exec(s, acts), a)
  {
    assert (acts + [a])[..|acts|] == acts;
  }

  lemma RunLast(s: State, acts: seq<Action>)
    requires IsRun(s, acts) && acts != []
    ensures var before, a := acts[..|acts| - 1], acts[|acts| - 1];
      IsRun(s, before) && Enabled(Exec(s, before), a) && Exec(s, acts) == Apply(Exec(s, before), a)
  {
    hide Enabled, Apply;
  }

  lemma {:induction false} RunCons(s: State, a: Action, acts: seq<Action>)
    requires Enabled(s, a) && IsRun(Apply(s, a), acts)
    ensures IsRun(s, [a] + acts) && Exec(s, [a] + acts) == Exec(Apply(s, a), acts)
    decreases |acts|
  {
    hide Enabled, Apply;
    if acts == [] {
      RunSnoc(s, [], a);
      assert [a] + acts == [] + [a];
    } else {
      var before, last := acts[..|acts| - 1], acts[|acts| - 1];
      RunLast(Apply(s, a), acts);
      RunCons(s, a, before);
      RunSnoc(s, [a] + before, last);
      assert [a] + before + [last] == [a] + acts;
    }
  }
}
