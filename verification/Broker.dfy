/**
 * The broker worker (`handler/broker.py`) as a step machine: one step per await that resumes, so a
 * cancellation can be delivered at every await.  `connect`, `disconnect` and `send_message` are
 * known by their contract only: a `connect` that raises leaves `client` at None, a `disconnect` that
 * returns leaves it at None, one that is cut off may or may not have reset it.
 */
module Broker {
  import opened Records
  import opened Backoff
  import P = Pipeline

  /** The statement of `_worker` the coroutine is suspended at, or about to run. */
  datatype Pc =
    | NotStarted
    | LoopHead
    | Connecting
    | Sleeping
    | Getting
    | Sending(record: LogRecord)
    | Disconnecting(record: LogRecord)
    | FinalDisconnect
    | Ended

  /** A call of `send_message` and the client it was made on. */
  datatype Send = Send(record: LogRecord, client: nat)

  /** The worker's coroutine and the handler fields it updates; clients are numbered, 0 the injected one. */
  datatype Task = Task(
    pc: Pc,
    running: bool,
    cancelled: bool,
    client: Option<nat>,
    delay: real)

  datatype Queue = Queue(items: seq<LogRecord>, unfinished: int)

  /**
   * What happened.  `removed` are the records taken out of the queue, by the worker (`dequeued`) or
   * by the handler's final clearing.  `installed` are the clients `connect()` put in place, `attempted` those a
   * disconnect was attempted on, `sleeps` the backoff sleeps since the last successful connect.
   * `cycleStart` is the number of acknowledgements when the present worker started.
   */
  datatype History = History(
    puts: seq<LogRecord>,
    removed: seq<LogRecord>,
    dequeued: seq<LogRecord>,
    sends: seq<Send>,
    acks: seq<P.Ack>,
    cycleStart: nat,
    connectCalls: nat,
    installed: seq<nat>,
    attempted: seq<nat>,
    sleeps: seq<real>)

  datatype State = State(owns: bool, task: Task, queue: Queue, past: History)

  /** `cleared` tells whether the call that is cut off had already reset `client`. */
  datatype Action =
    | Start
    | Put(record: LogRecord)
    | ClearRunning
    | Discard
    | LoopTest
    | ConnectOk
    | ConnectRaise(sleep: real)
    | SleepDone
    | GetTimeout
    | GetRecord
    | SendOk
    | SendRaise
    | DisconnectOk
    | DisconnectRaise
    | Cancel(cleared: bool)

  function Initial(owns: bool): State {
    State(owns, Task(NotStarted, false, false, if owns then None else Some(0), CONNECT_RETRY_BASE),
          Queue([], 0), History([], [], [], [], [], 0, 0, [], [], []))
  }

  predicate AtAwait(pc: Pc) {
    pc.Connecting? || pc.Sleeping? || pc.Getting? || pc.Sending? || pc.Disconnecting? || pc.FinalDisconnect?
  }

  predicate Enabled(s: State, a: Action) {
    match a
    case Start => (s.task.pc.NotStarted? || s.task.pc.Ended?) && !s.task.running && s.queue.items == []
    case Put(_) => s.task.running
    case ClearRunning => true
    case Discard => s.task.pc.Ended? && s.queue.items != []
    case LoopTest => s.task.pc.LoopHead?
    case ConnectOk => s.task.pc.Connecting?
    case ConnectRaise(sleep) => s.task.pc.Connecting? && Jittered(s.task.delay, sleep)
    case SleepDone => s.task.pc.Sleeping?
    case GetTimeout => s.task.pc.Getting?
    case GetRecord => s.task.pc.Getting? && s.queue.items != []
    case SendOk => s.task.pc.Sending?
    case SendRaise => s.task.pc.Sending?
    case DisconnectOk => s.task.pc.Disconnecting? || s.task.pc.FinalDisconnect?
    case DisconnectRaise => s.task.pc.Disconnecting? || s.task.pc.FinalDisconnect?
    case Cancel(_) => AtAwait(s.task.pc)
  }

  /** `task_done()` for the record the worker holds. */
  function Acknowledge(s: State, record: LogRecord, outcome: P.Outcome): State {
    s.(queue := s.queue.(unfinished := s.queue.unfinished - 1),
       past := s.past.(acks := s.past.acks + [P.Ack(record, outcome)]))
  }

  /** A disconnect is attempted on the present client, if there is one. */
  function Attempt(s: State): State {
    if s.task.client.Some? then s.(past := s.past.(attempted := s.past.attempted + [s.task.client.value]))
    else s
  }

  /**
   * The worker's outer `finally`.  With an injected client `_disconnect` returns without awaiting,
   * so nothing can interrupt it and the reference is dropped at once.
   */
  function EnterFinally(s: State): State {
    if s.owns then Attempt(s.(task := s.task.(pc := FinalDisconnect)))
    else s.(task := s.task.(pc := Ended, client := None))
  }

  /** The loop condition, and `_connect` when it needs no await. */
  function LoopStep(s: State): State {
    if s.task.running || s.queue.items != [] then
      if s.task.client.Some? then s.(task := s.task.(pc := Getting))
      else if s.owns then
        s.(task := s.task.(pc := Connecting), past := s.past.(connectCalls := s.past.connectCalls + 1))
      else
        s.(task := s.task.(pc := Getting, client := Some(0), delay := CONNECT_RETRY_BASE),
           past := s.past.(sleeps := []))
    else EnterFinally(s)
  }

  function NextClient(s: State): nat {
    |s.past.installed| + 1
  }

  function Install(s: State): State {
    s.(task := s.task.(client := Some(NextClient(s))),
       past := s.past.(installed := s.past.installed + [NextClient(s)]))
  }

  /** What a cancellation does before the outer `finally`: the call is cut off, the record acknowledged. */
  function BeforeFinally(s: State, cleared: bool): State
    requires AtAwait(s.task.pc)
  {
    var t := s.(task := s.task.(cancelled := true));
    var pc := s.task.pc;
    if pc.Connecting? then (if cleared then t else Install(t))
    else if pc.Sending? then Acknowledge(t, pc.record, P.CutOff)
    else if pc.Disconnecting? then
      Acknowledge(if cleared then t.(task := t.task.(client := None)) else t, pc.record, P.Reported)
    else t
  }

  /** `CancelledError` raised at the await the worker is suspended at. */
  function CancelStep(s: State, cleared: bool): State
    requires AtAwait(s.task.pc)
  {
    if s.task.pc.FinalDisconnect? then
      s.(task := s.task.(cancelled := true, pc := Ended, client := if cleared then None else s.task.client))
    else EnterFinally(BeforeFinally(s, cleared))
  }

  function Apply(s: State, a: Action): State
    requires Enabled(s, a)
  {
    match a
    case Start =>
      s.(task := s.task.(pc := LoopHead, running := true, cancelled := false, delay := CONNECT_RETRY_BASE),
         past := s.past.(cycleStart := |s.past.acks|, sleeps := []))
    case Put(r) =>
      s.(queue := Queue(s.queue.items + [r], s.queue.unfinished + 1), past := s.past.(puts := s.past.puts + [r]))
    case ClearRunning => s.(task := s.task.(running := false))
    case Discard =>
      s.(queue := Queue(s.queue.items[1..], s.queue.unfinished - 1),
         past := s.past.(removed := s.past.removed + [s.queue.items[0]]))
    case LoopTest => LoopStep(s)
    case ConnectOk =>
      var t := Install(s);
      t.(task := t.task.(pc := Getting, delay := CONNECT_RETRY_BASE), past := t.past.(sleeps := []))
    case ConnectRaise(sleep) =>
      s.(task := s.task.(pc := Sleeping), past := s.past.(sleeps := s.past.sleeps + [sleep]))
    case SleepDone => s.(task := s.task.(pc := LoopHead, delay := NextDelay(s.task.delay)))
    case GetTimeout => s.(task := s.task.(pc := LoopHead))
    case GetRecord => Dequeue(s)
    case SendOk => Acknowledge(s.(task := s.task.(pc := LoopHead)), s.task.pc.record, P.Delivered)
    case SendRaise =>
      if s.owns then Attempt(s.(task := s.task.(pc := Disconnecting(s.task.pc.record))))
      else Acknowledge(s.(task := s.task.(pc := LoopHead)), s.task.pc.record, P.Reported)
    case DisconnectOk => AfterDisconnect(s)
    case DisconnectRaise => AfterDisconnect(s)
    case Cancel(cleared) => CancelStep(s, cleared)
  }

  /** `get()` returns, and the send on the present client begins. */
  function Dequeue(s: State): State
    requires s.queue.items != []
  {
    var r := s.queue.items[0];
    s.(task := s.task.(pc := Sending(r)), queue := s.queue.(items := s.queue.items[1..]),
       past := s.past.(removed := s.past.removed + [r], dequeued := s.past.dequeued + [r],
                       sends := s.past.sends + [Send(r, if s.task.client.Some? then s.task.client.value else 0)]))
  }

  /** Whether `disconnect()` returned or raised, the reference is gone afterwards. */
  function AfterDisconnect(s: State): State
    requires s.task.pc.Disconnecting? || s.task.pc.FinalDisconnect?
  {
    var t := s.(task := s.task.(client := None));
    if s.task.pc.FinalDisconnect? then t.(task := t.task.(pc := Ended))
    else Acknowledge(t.(task := t.task.(pc := LoopHead)), s.task.pc.record, P.Reported)
  }

  // ----- runs -----

  predicate IsRun(s: State, acts: seq<Action>)
    decreases |acts|, 0
  {
    acts == [] || (IsRun(s, acts[..|acts| - 1]) && Enabled(Exec(s, acts[..|acts| - 1]), acts[|acts| - 1]))
  }

  function Exec(s: State, acts: seq<Action>): State
    requires IsRun(s, acts)
    decreases |acts|, 1
  {
    if acts == [] then s
    else Apply(Exec(s, acts[..|acts| - 1]), acts[|acts| - 1])
  }

  lemma RunSnoc(s: State, acts: seq<Action>, a: Action)
    requires IsRun(s, acts) && Enabled(Exec(s, acts), a)
    ensures IsRun(s, acts + [a]) && Exec(s, acts + [a]) == Apply(Exec(s, acts), a)
  {
    assert (acts + [a])[..|acts|] == acts;
  }

  lemma RunLast(s: State, acts: seq<Action>)
    requires IsRun(s, acts) && acts != []
    ensures var before, a := acts[..|acts| - 1], acts[|acts| - 1];
      IsRun(s, before) && Enabled(Exec(s, before), a) && Exec(s, acts) == Apply(Exec(s, before), a)
  {
    hide Enabled, Apply;
  }

  lemma {:induction false} RunCons(s: State, a: Action, acts: seq<Action>)
    requires Enabled(s, a) && IsRun(Apply(s, a), acts)
    ensures IsRun(s, [a] + acts) && Exec(s, [a] + acts) == Exec(Apply(s, a), acts)
    decreases |acts|
  {
    hide Enabled, Apply;
    if acts == [] {
      RunSnoc(s, [], a);
      assert [a] + acts == [] + [a];
    } else {
      var before, last := acts[..|acts| - 1], acts[|acts| - 1];
      RunLast(Apply(s, a), acts);
      RunCons(s, a, before);
      RunSnoc(s, [a] + before, last);
      assert [a] + before + [last] == [a] + acts;
    }
  }

  lemma NoSteps(s: State)
    ensures IsRun(s, []) && Exec(s, []) == s
  {
  }

  lemma RunConcat(s: State, acts: seq<Action>, more: seq<Action>)
    requires IsRun(s, acts) && IsRun(Exec(s, acts), more)
    ensures IsRun(s, acts + more) && Exec(s, acts + more) == Exec(Exec(s, acts), more)
    decreases |more|
  {
    hide IsRun, Exec, Enabled, Apply;
    if more == [] {
      NoSteps(Exec(s, acts));
      assert acts + more == acts;
    } else {
      var before, last := more[..|more| - 1], more[|more| - 1];
      RunLast(Exec(s, acts), more);
      RunConcat(s, acts, before);
      RunSnoc(s, acts + before, last);
      assert acts + before + [last] == acts + more;
    }
  }
}
