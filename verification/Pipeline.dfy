/**
 * The concurrent logging pipeline as a step machine.
 *
 * One step is one thing that no other actor can interrupt: a field read, a field write, a queue
 * operation.  Emitter threads may step at any time.  Everything that runs on the event loop steps
 * only while the loop is free, and holds the loop between two awaits.
 */
module Pipeline {
  import opened Records
  import opened QueueBackend

  /** A put of `record` into one backend queue and whether there was room for it. */
  datatype Offer = Offer(record: LogRecord, accepted: bool)

  /** How the handling of a dequeued record ended when it was acknowledged. */
  datatype Outcome = Delivered | Reported | Skipped | CutOff

  datatype Ack = Ack(record: LogRecord, outcome: Outcome)

  /** A backend's drain hook: awaiting `join()`, `join()` has resumed, or the hook has returned. */
  datatype Drain = NotDraining | Joining | Joined | Drained(status: DrainStatus)

  /**
   * A worker's task: it ends by itself (`Finished`), or a cancellation has reached it and it is in its teardown; stop can
   * cancel it there once more; and then it ends as a cancelled task (`Died`).
   */
  datatype WorkerTask = NoTask | Alive | Cancelling | Recancelled | Finished | Died

  /**
   * A registered backend: its `asyncio.Queue`, its worker task, its drain hook, and what happened
   * in the current start cycle.  `missed` are the records moved before the backend registered.
   */
  datatype Backend = Backend(
    name: string,
    displayName: Option<string>,
    maxsize: int,
    queue: seq<LogRecord>,
    unfinished: int,
    worker: WorkerTask,
    hand: Option<LogRecord>,
    drain: Drain,
    missed: seq<LogRecord>,
    offers: seq<Offer>,
    statuses: seq<LogRecord>,
    acks: seq<Ack>,
    discarded: seq<LogRecord>)

  datatype EmitFate = NotAccepting | TornDown | Overflow | Entered

  /**
   * One call of `emit`, by the statement it is about to execute.  The ingress and the event are
   * named by the start cycle that created them.
   */
  datatype Emitter =
    | AtGate(record: LogRecord)
    | AtReadIngress(record: LogRecord)
    | AtReadLoop(record: LogRecord, ingress: Option<nat>)
    | AtReadEvent(record: LogRecord, ingress: Option<nat>, loopSeen: bool)
    | AtPut(record: LogRecord, into: nat, event: nat)
    | AtWake(record: LogRecord, event: nat)
    | Returned(record: LogRecord, fate: EmitFate)

  /** `_bridge_task`: absent, awaiting the event, in its inner loop, cancel requested, or done. */
  datatype Bridge = NoBridge | Waiting | Moving | CancelRequested | Dead

  /** The record between `get_nowait` and the last `put_nowait`, and the backend it goes to next. */
  datatype Hand = Empty | Holding(record: LogRecord, next: nat)

  /** The statement of `start_logging` or `stop_logging` about to run, or `Idle` outside both. */
  datatype Host =
    | Idle
    | StartLoop | StartIngress | StartEvent | StartBridge | StartAccept | StartRunning | StartWorkers
    | StopAccept | StopCancelBridge | StopAwaitBridge | StopFlush | StopDrain
    | StopReport(reporter: nat, result: nat) | StopRunning | StopGather | StopRegather
    | StopClearQueue(backend: nat) | StopClearIngress
    | ReleaseLoop | ReleaseIngress | ReleaseEvent | ReleaseBridge

  /** The handler's own attributes and the statement its host is at. */
  datatype Control = Control(
    host: Host,
    closed: bool,
    accept: bool,
    running: bool,
    loopRef: bool,
    ingressRef: Option<nat>,
    eventRef: Option<nat>,
    bridge: Bridge,
    reporters: seq<nat>)

  /**
   * The newest ingress queue and its event, named by `cycle`.  They keep existing as garbage after
   * the handler released its references.  `entered` are the records ever put into it; the bridge or
   * stop's flush took `moved` out of it and stop's final clearing took out `dropped`.
   */
  datatype Ingress = Ingress(
    cycle: nat,
    maxsize: int,
    items: seq<LogRecord>,
    wake: bool,
    pendingWakes: nat,
    entered: seq<LogRecord>,
    moved: seq<LogRecord>,
    dropped: seq<LogRecord>)

  datatype State = State(
    ctl: Control,
    ing: Ingress,
    hand: Hand,
    emitters: seq<Emitter>,
    backends: seq<Backend>)

  datatype Action =
    | EmitCall(record: LogRecord)
    | EmitStep(i: nat)
    | EmitStaleFull(i: nat)
    | WakeCallback
    | BridgeWake | MoveGet | MovePut(b: nat) | BridgeEmpty | BridgeDie
    | WorkerGet(b: nat) | WorkerAck(b: nat, outcome: Outcome)
    | WorkerExit(b: nat) | WorkerCancel(b: nat) | WorkerDie(b: nat)
    | DrainJoin(b: nat) | DrainReturn(b: nat, status: DrainStatus)
    | Register(name: string, displayName: Option<string>, maxsize: int)
    | RegisterReporter(b: nat)
    | StartCall | StopCall | CloseCall | HostStep | Regather

  function Initial(maxsize: int): State {
    State(Control(Idle, false, false, false, false, None, None, NoBridge, []),
          Ingress(0, maxsize, [], false, 0, [], [], []),
          Empty, [], [])
  }

  // ----- reading the state -----

  /** The host is outside both calls or at one of their awaits. */
  predicate HostAwaits(h: Host) {
    h.Idle? || h.StopAwaitBridge? || h.StopDrain? || Gathers(h)
  }

  /** Stop awaits its workers, for the first time or after it has cancelled them again. */
  predicate Gathers(h: Host) {
    h.StopGather? || h.StopRegather?
  }

  /** No coroutine is between two awaits. */
  predicate LoopFree(s: State) {
    !s.ctl.bridge.Moving? && HostAwaits(s.ctl.host)
  }

  predicate InStart(h: Host) {
    (h.StartLoop? || h.StartIngress? || h.StartEvent? || h.StartBridge? || h.StartAccept? || h.StartRunning? || h.StartWorkers?)
  }

  predicate InStop(h: Host) {
    !h.Idle? && !InStart(h)
  }

  predicate HasTasks(s: State) {
    exists b | 0 <= b < |s.backends| :: !s.backends[b].worker.NoTask?
  }

  predicate AllDrained(s: State) {
    forall b | 0 <= b < |s.backends| :: s.backends[b].drain.Drained?
  }

  predicate TaskEnded(w: WorkerTask) {
    w.NoTask? || w.Finished? || w.Died?
  }

  predicate TearsDown(w: WorkerTask) {
    w.Cancelling? || w.Recancelled?
  }

  predicate AllGathered(s: State) {
    forall b | 0 <= b < |s.backends| :: TaskEnded(s.backends[b].worker)
  }

  /** A cancelled worker has ended, which settles a `gather` without `return_exceptions`. */
  predicate SomeoneDied(s: State) {
    exists b | 0 <= b < |s.backends| :: s.backends[b].worker.Died?
  }

  predicate NameTaken(s: State, name: string) {
    exists b | 0 <= b < |s.backends| :: s.backends[b].name == name
  }

  /** `asyncio.Queue.full`: a non-positive bound never fills. */
  predicate QueueFull(b: Backend) {
    0 < b.maxsize <= |b.queue|
  }

  /** `queue.Queue` on the ingress. */
  predicate IngressFull(ing: Ingress) {
    0 < ing.maxsize <= |ing.items|
  }

  function DrainResult(b: Backend): BackendDrainResult {
    BackendDrainResult(b.name, if b.drain.Drained? then b.drain.status else ERROR, "", b.displayName)
  }

  /** What `gather` hands to the reporters: one result per hook, in registration order. */
  function DrainResults(s: State): (results: seq<BackendDrainResult>)
    ensures |results| == |s.backends|
  {
    seq(|s.backends|, b requires 0 <= b < |s.backends| => DrainResult(s.backends[b]))
  }

  // ----- one backend -----

  function PutNowait(b: Backend, record: LogRecord): Backend {
    if QueueFull(b) then b
    else b.(queue := b.queue + [record], unfinished := b.unfinished + 1)
  }

  function OfferTo(b: Backend, record: LogRecord): Backend {
    PutNowait(b, record).(offers := b.offers + [Offer(record, !QueueFull(b))])
  }

  function StatusTo(b: Backend, record: LogRecord): Backend {
    if QueueFull(b) then b
    else PutNowait(b, record).(statuses := b.statuses + [record])
  }

  function GetTo(b: Backend): Backend
    requires b.queue != []
  {
    b.(queue := b.queue[1..], hand := Some(b.queue[0]))
  }

  function AckBy(b: Backend, outcome: Outcome): Backend
    requires b.hand.Some?
  {
    b.(hand := None, unfinished := b.unfinished - 1, acks := b.acks + [Ack(b.hand.value, outcome)])
  }

  function DiscardFrom(b: Backend): Backend
    requires b.queue != []
  {
    b.(queue := b.queue[1..], unfinished := b.unfinished - 1, discarded := b.discarded + [b.queue[0]])
  }

  function ForgetCycle(b: Backend): Backend {
    b.(missed := [], offers := [], statuses := [], acks := [], discarded := [], drain := NotDraining)
  }

  function StartWorker(b: Backend): Backend { b.(worker := Alive) }

  function StartDrain(b: Backend): Backend { b.(drain := Joining) }

  function Cancelled(w: WorkerTask): WorkerTask {
    if w.Alive? then Cancelling else Recancelled
  }

  function ForgetWorker(b: Backend): Backend { b.(worker := NoTask) }

  function MapBackends(bs: seq<Backend>, f: Backend -> Backend): (r: seq<Backend>)
    ensures |r| == |bs|
    ensures forall b | 0 <= b < |bs| :: r[b] == f(bs[b])
  {
    seq(|bs|, b requires 0 <= b < |bs| => f(bs[b]))
  }

  function SetBackend(s: State, b: nat, to: Backend): State
    requires b < |s.backends|
  {
    s.(backends := s.backends[b := to])
  }

  // ----- when a step may happen -----

  predicate Enabled(s: State, a: Action) {
    match a
    case EmitCall(_) => true
    case EmitStep(i) => i < |s.emitters| && !s.emitters[i].Returned?
    case EmitStaleFull(i) => i < |s.emitters| && s.emitters[i].AtPut? && s.emitters[i].into != s.ing.cycle
    case WakeCallback => LoopFree(s) && 0 < s.ing.pendingWakes
    case BridgeWake => LoopFree(s) && s.ctl.bridge.Waiting? && s.ing.wake
    case MoveGet => (s.ctl.bridge.Moving? || s.ctl.host.StopFlush?) && s.hand.Empty? && s.ing.items != []
    case MovePut(b) => s.hand.Holding? && b == s.hand.next && b < |s.backends|
    case BridgeEmpty => s.ctl.bridge.Moving? && s.hand.Empty? && s.ing.items == []
    case BridgeDie => LoopFree(s) && s.ctl.bridge.CancelRequested?
    case WorkerGet(b) =>
      LoopFree(s) && b < |s.backends| && s.backends[b].worker.Alive? && s.backends[b].hand == None
      && s.backends[b].queue != []
    case WorkerAck(b, _) =>
      LoopFree(s) && b < |s.backends| && s.backends[b].hand.Some?
      && (s.backends[b].worker.Alive? || TearsDown(s.backends[b].worker))
    case WorkerExit(b) =>
      LoopFree(s) && b < |s.backends| && s.backends[b].worker.Alive? && s.backends[b].hand == None
      && !s.ctl.running && s.backends[b].queue == []
    case WorkerCancel(b) =>
      LoopFree(s) && b < |s.backends| && CanCancel(s.ctl.host, s.backends[b].worker)
    case WorkerDie(b) =>
      LoopFree(s) && b < |s.backends| && TearsDown(s.backends[b].worker) && s.backends[b].hand == None
    case DrainJoin(b) =>
      LoopFree(s) && s.ctl.host.StopDrain? && b < |s.backends| && s.backends[b].drain.Joining? && s.backends[b].unfinished == 0
    case DrainReturn(b, status) =>
      LoopFree(s) && s.ctl.host.StopDrain? && b < |s.backends| &&
      (match status
       case COMPLETED => s.backends[b].drain.Joined?
       case TIMEOUT => (s.backends[b].drain.Joining? || s.backends[b].drain.Joined?)
       case ERROR => s.backends[b].drain.Joining?)
    case Register(name, _, _) => s.ctl.host.Idle? && LoopFree(s) && !NameTaken(s, name)
    case RegisterReporter(b) => s.ctl.host.Idle? && b < |s.backends|
    case StartCall => s.ctl.host.Idle? && LoopFree(s) && !s.ctl.closed && !s.ctl.running
    case StopCall => s.ctl.host.Idle? && LoopFree(s) && (s.ctl.running || HasTasks(s))
    case CloseCall => !InStart(s.ctl.host)
    case HostStep => HostReady(s)
    case Regather => s.ctl.host.StopGather? && SomeoneDied(s)
  }

  /** The timeout of the first gather cancels the workers, and those still in their teardown are cancelled once again. */
  predicate CanCancel(h: Host, w: WorkerTask) {
    (w.Alive? && Gathers(h)) || (w.Cancelling? && h.StopRegather?)
  }

  predicate HostReady(s: State) {
    match s.ctl.host
    case Idle => false
    case StopAwaitBridge => s.ctl.bridge.Dead?
    case StopFlush => s.hand.Empty? && s.ing.items == []
    case StopDrain => AllDrained(s)
    case StopReport(r, _) => r < |s.ctl.reporters| ==> s.ctl.reporters[r] < |s.backends|
    case StopGather => AllGathered(s) && !SomeoneDied(s)
    case StopRegather => AllGathered(s)
    case _ => true
  }

  // ----- what a step does -----

  function Apply(s: State, a: Action): State
    requires Enabled(s, a)
  {
    match a
    case EmitCall(record) => s.(emitters := s.emitters + [AtGate(record)])
    case EmitStep(i) => EmitterStep(s, i)
    case EmitStaleFull(i) => s.(emitters := s.emitters[i := Returned(s.emitters[i].record, Overflow)])
    case WakeCallback => s.(ing := s.ing.(wake := true, pendingWakes := s.ing.pendingWakes - 1))
    case BridgeWake => s.(ctl := s.ctl.(bridge := Moving), ing := s.ing.(wake := false))
    case MoveGet =>
      s.(ing := TakeItem(s.ing), hand := if s.backends == [] then Empty else Holding(s.ing.items[0], 0))
    case MovePut(b) =>
      s.(backends := s.backends[b := OfferTo(s.backends[b], s.hand.record)],
         hand := if b + 1 == |s.backends| then Empty else Holding(s.hand.record, b + 1))
    case BridgeEmpty => s.(ctl := s.ctl.(bridge := Waiting))
    case BridgeDie => s.(ctl := s.ctl.(bridge := Dead))
    case WorkerGet(b) => SetBackend(s, b, GetTo(s.backends[b]))
    case WorkerAck(b, outcome) => SetBackend(s, b, AckBy(s.backends[b], outcome))
    case WorkerExit(b) => SetBackend(s, b, s.backends[b].(worker := Finished))
    case WorkerCancel(b) => SetBackend(s, b, s.backends[b].(worker := Cancelled(s.backends[b].worker)))
    case WorkerDie(b) => SetBackend(s, b, s.backends[b].(worker := Died))
    case DrainJoin(b) => SetBackend(s, b, s.backends[b].(drain := Joined))
    case DrainReturn(b, status) => SetBackend(s, b, s.backends[b].(drain := Drained(status)))
    case Register(name, displayName, maxsize) =>
      s.(backends := s.backends + [FreshBackend(name, displayName, maxsize, s.ing.moved)])
    case RegisterReporter(b) => s.(ctl := s.ctl.(reporters := s.ctl.reporters + [b]))
    case StartCall => s.(ctl := s.ctl.(host := StartLoop))
    case StopCall => s.(ctl := s.ctl.(host := StopAccept))
    case CloseCall => s.(ctl := s.ctl.(closed := true, accept := false))
    case HostStep => HostStepped(s)
    case Regather => s.(ctl := s.ctl.(host := StopRegather))
  }

  /** `get_nowait` on the ingress. */
  function TakeItem(ing: Ingress): Ingress
    requires ing.items != []
  {
    ing.(items := ing.items[1..], moved := ing.moved + [ing.items[0]])
  }

  /** `put_nowait` on the ingress, when there is room. */
  function PutItem(ing: Ingress, record: LogRecord): Ingress {
    ing.(items := ing.items + [record], entered := ing.entered + [record])
  }

  /** `get_nowait` in stop's final clearing. */
  function DropItem(ing: Ingress): Ingress
    requires ing.items != []
  {
    ing.(items := ing.items[1..], dropped := ing.dropped + [ing.items[0]])
  }

  function FreshBackend(name: string, displayName: Option<string>, maxsize: int, missed: seq<LogRecord>): Backend {
    Backend(name, displayName, maxsize, [], 0, NoTask, None, NotDraining, missed, [], [], [], [])
  }

  /** The next statement of `emit`. */
  function EmitterStep(s: State, i: nat): State
    requires i < |s.emitters| && !s.emitters[i].Returned?
  {
    var e := s.emitters[i];
    if e.AtPut? then
      if e.into != s.ing.cycle then s.(emitters := s.emitters[i := AtWake(e.record, e.event)])
      else if IngressFull(s.ing) then s.(emitters := s.emitters[i := Returned(e.record, Overflow)])
      else s.(emitters := s.emitters[i := AtWake(e.record, e.event)], ing := PutItem(s.ing, e.record))
    else if e.AtWake? then
      s.(emitters := s.emitters[i := Returned(e.record, Entered)],
         ing := if e.event == s.ing.cycle then s.ing.(pendingWakes := s.ing.pendingWakes + 1) else s.ing)
    else
      s.(emitters := s.emitters[i := ReadStep(s.ctl, e)])
  }

  /** The statements of `emit` that only read the handler. */
  function ReadStep(ctl: Control, e: Emitter): Emitter
    requires e.AtGate? || e.AtReadIngress? || e.AtReadLoop? || e.AtReadEvent?
  {
    match e
    case AtGate(r) => if ctl.accept then AtReadIngress(r) else Returned(r, NotAccepting)
    case AtReadIngress(r) => AtReadLoop(r, ctl.ingressRef)
    case AtReadLoop(r, ingress) => AtReadEvent(r, ingress, ctl.loopRef)
    case AtReadEvent(r, ingress, loopSeen) =>
      if ingress == None || !loopSeen || ctl.eventRef == None then Returned(r, TornDown)
      else AtPut(r, ingress.value, ctl.eventRef.value)
  }

  /** The next statement of `start_logging` or `stop_logging`. */
  function HostStepped(s: State): State
    requires HostReady(s)
  {
    match s.ctl.host
    case StartIngress =>
      s.(ctl := s.ctl.(ingressRef := Some(s.ing.cycle + 1), host := StartEvent),
         ing := Ingress(s.ing.cycle + 1, s.ing.maxsize, [], false, 0, [], [], []),
         backends := MapBackends(s.backends, ForgetCycle))
    case StartWorkers =>
      s.(ctl := s.ctl.(host := Idle), backends := MapBackends(s.backends, StartWorker))
    case StopFlush =>
      s.(ctl := s.ctl.(host := StopDrain), backends := MapBackends(s.backends, StartDrain))
    case StopGather | StopRegather =>
      s.(ctl := s.ctl.(host := StopClearQueue(0)), backends := MapBackends(s.backends, ForgetWorker))
    case StopReport(reporter, result) =>
      if reporter >= |s.ctl.reporters| then s.(ctl := s.ctl.(host := StopRunning))
      else if result >= |s.backends| then s.(ctl := s.ctl.(host := StopReport(reporter + 1, 0)))
      else
        var b := s.ctl.reporters[reporter];
        s.(ctl := s.ctl.(host := StopReport(reporter, result + 1)),
           backends := s.backends[b := StatusTo(s.backends[b], StatusRecord(DrainResult(s.backends[result])))])
    case StopClearQueue(b) =>
      if b >= |s.backends| then s.(ctl := s.ctl.(host := StopClearIngress))
      else if s.backends[b].queue == [] then s.(ctl := s.ctl.(host := StopClearQueue(b + 1)))
      else SetBackend(s, b, DiscardFrom(s.backends[b]))
    case StopClearIngress =>
      if s.ing.items == [] then s.(ctl := s.ctl.(host := ReleaseLoop))
      else s.(ing := DropItem(s.ing))
    case _ => s.(ctl := ControlStep(s.ctl, s.ing.cycle))
  }

  /** The statements of `start_logging` and `stop_logging` that touch only the handler's attributes. */
  function ControlStep(ctl: Control, cycle: nat): Control {
    match ctl.host
    case StartLoop => ctl.(loopRef := true, host := StartIngress)
    case StartEvent => ctl.(eventRef := Some(cycle), host := StartBridge)
    case StartBridge => ctl.(bridge := Waiting, host := StartAccept)
    case StartAccept => ctl.(accept := true, host := StartRunning)
    case StartRunning => ctl.(running := true, host := StartWorkers)
    case StopAccept => ctl.(accept := false, host := StopCancelBridge)
    case StopCancelBridge => ctl.(bridge := CancelRequested, host := StopAwaitBridge)
    case StopAwaitBridge => ctl.(host := StopFlush)
    case StopDrain => ctl.(host := StopReport(0, 0))
    case StopRunning => ctl.(running := false, host := StopGather)
    case ReleaseLoop => ctl.(loopRef := false, host := ReleaseIngress)
    case ReleaseIngress => ctl.(ingressRef := None, host := ReleaseEvent)
    case ReleaseEvent => ctl.(eventRef := None, host := ReleaseBridge)
    case ReleaseBridge => ctl.(bridge := NoBridge, host := Idle)
    case _ => ctl
  }

  // ----- runs -----

  predicate IsRun(s: State, acts: seq<Action>)
    decreases |acts|, 0
  {
    acts == [] || (IsRun(s, acts[..|acts| - 1]) && Enabled(Exec(s, acts[..|acts| - 1]), acts[|acts| - 1]))
  }

  /** The state after `acts`. */
  function Exec(s: State, acts: seq<Action>): State
    requires IsRun(s, acts)
    decreases |acts|, 1
  {
    if acts == [] then s
    else Apply(Exec(s, acts[..|acts| - 1]), acts[|acts| - 1])
  }

  lemma RunSnoc(s: State, acts: seq<Action>, a: Action)
    requires IsRun(s, acts) && Enabled(Exec(s, acts), a)
    ensures IsRun(s, acts + [a]) && Exec(s, acts + [a]) == Apply(Exec(s, acts), a)
  {
    assert (acts + [a])[..|acts|] == acts;
  }

  lemma RunLast(s: State, acts: seq<Action>)
    requires IsRun(s, acts) && acts != []
    ensures var before, a := acts[..|acts| - 1], acts[|acts| - 1];
      IsRun(s, before) && Enabled(Exec(s, before), a) && Exec(s, acts) == Apply(Exec(s, before), a)
  {
    hide Enabled, Apply;
  }

  lemma {:induction false} RunCons(s: State, a: Action, acts: seq<Action>)
    requires Enabled(s, a) && IsRun(Apply(s, a), acts)
    ensures IsRun(s, [a] + acts) && Exec(s, [a] + acts) == Exec(Apply(s, a), acts)
    decreases |acts|
  {
    if acts == [] {
      RunSnoc(s, [], a);
      assert [a] + acts == [] + [a];
    } else {
      var before, last := acts[..|acts| - 1], acts[|acts| - 1];
      RunCons(s, a, before);
      RunSnoc(s, [a] + before, last);
      assert [a] + before + [last] == [a] + acts;
    }
  }

  lemma NoSteps(s: State)
    ensures IsRun(s, []) && Exec(s, []) == s
  {
  }

  lemma RunConcat(s: State, acts: seq<Action>, more: seq<Action>)
    requires IsRun(s, acts) && IsRun(Exec(s, acts), more)
    ensures IsRun(s, acts + more) && Exec(s, acts + more) == Exec(Exec(s, acts), more)
    decreases |more|
  {
    hide IsRun, Exec, Enabled, Apply;
    if more == [] {
      NoSteps(Exec(s, acts));
      assert acts + more == acts;
    } else {
      var before, last := more[..|more| - 1], more[|more| - 1];
      RunLast(Exec(s, acts), more);
      RunConcat(s, acts, before);
      RunSnoc(s, acts + before, last);
      assert acts + before + [last] == acts + more;
    }
  }
}
