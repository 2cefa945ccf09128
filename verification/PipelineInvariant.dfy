/** What every step of the pipeline keeps. */
module PipelineInvariant {
  import opened Records
  import opened QueueBackend
  import opened Pipeline

  // ----- histories -----

  function Offered(os: seq<Offer>): seq<LogRecord> {
    if os == [] then [] else Offered(os[..|os| - 1]) + [os[|os| - 1].record]
  }

  /** The put history of a queue: what was offered minus what was refused. */
  function Accepted(os: seq<Offer>): seq<LogRecord> {
    if os == [] then []
    else Accepted(os[..|os| - 1]) + (if os[|os| - 1].accepted then [os[|os| - 1].record] else [])
  }

  function Refused(os: seq<Offer>): seq<LogRecord> {
    if os == [] then []
    else Refused(os[..|os| - 1]) + (if os[|os| - 1].accepted then [] else [os[|os| - 1].record])
  }

  function Acked(acks: seq<Ack>): seq<LogRecord> {
    if acks == [] then [] else Acked(acks[..|acks| - 1]) + [acks[|acks| - 1].record]
  }

  /** Every one of `records` acknowledged as delivered. */
  function DeliveredAcks(records: seq<LogRecord>): (r: seq<Ack>)
    ensures |r| == |records|
  {
    seq(|records|, k requires 0 <= k < |records| => Ack(records[k], Delivered))
  }

  lemma DeliveredNext(records: seq<LogRecord>, n: nat)
    requires n < |records|
    ensures DeliveredAcks(records[..n + 1]) == DeliveredAcks(records[..n]) + [Ack(records[n], Delivered)]
    ensures records[n..][1..] == records[n + 1..]
  {
  }

  function DeliveredOf(acks: seq<Ack>): seq<LogRecord> {
    if acks == [] then []
    else DeliveredOf(acks[..|acks| - 1]) +
         (if acks[|acks| - 1].outcome == Delivered then [acks[|acks| - 1].record] else [])
  }

  function InHand(b: Backend): seq<LogRecord> {
    if b.hand.Some? then [b.hand.value] else []
  }

  /** The record held by the bridge or by stop's flush, if backend `b` has not been offered it yet. */
  function PendingFor(hand: Hand, b: nat): seq<LogRecord> {
    if hand.Holding? && hand.next <= b then [hand.record] else []
  }

  // ----- the invariant, part by part -----

  /** Started and not yet past the point of `stop_logging` that takes it away again. */
  predicate LoopUp(h: Host, running: bool) {
    match h
    case Idle => running
    case StartLoop | ReleaseIngress | ReleaseEvent | ReleaseBridge => false
    case _ => true
  }

  predicate IngressUp(h: Host, running: bool) {
    match h
    case Idle => running
    case StartLoop | StartIngress | ReleaseEvent | ReleaseBridge => false
    case _ => true
  }

  predicate EventUp(h: Host, running: bool) {
    match h
    case Idle => running
    case StartLoop | StartIngress | StartEvent | ReleaseBridge => false
    case _ => true
  }

  predicate BridgeOk(c: Control) {
    match c.host
    case Idle => if c.running then c.bridge.Waiting? || c.bridge.Moving? else c.bridge.NoBridge?
    case StartLoop | StartIngress | StartEvent | StartBridge => c.bridge.NoBridge?
    case StartAccept | StartRunning | StartWorkers | StopAccept | StopCancelBridge => c.bridge.Waiting?
    case StopAwaitBridge => c.bridge.CancelRequested? || c.bridge.Dead?
    case _ => c.bridge.Dead?
  }

  predicate AcceptOk(c: Control) {
    match c.host
    case Idle => c.accept == (c.running && !c.closed)
    case StartRunning | StartWorkers => c.accept
    case StopAccept => c.accept == !c.closed
    case _ => !c.accept
  }

  predicate RunningOk(c: Control) {
    match c.host
    case Idle => true
    case StartWorkers | StopAccept | StopCancelBridge | StopAwaitBridge | StopFlush | StopDrain => c.running
    case StopReport(_, _) | StopRunning => c.running
    case _ => !c.running
  }

  /** Nothing of the previous cycle is left and nothing of the next one has begun. */
  predicate Quiet(h: Host, running: bool) {
    (h.Idle? && !running) || InStart(h)
  }

  /** The histories still are those of the previous cycle. */
  predicate Stale(h: Host, running: bool) {
    (h.Idle? && !running) || h.StartLoop? || h.StartIngress?
  }

  /** Between the workers' gather and the return of `stop_logging`. */
  predicate Clearing(h: Host) {
    h.StopClearQueue? || h.StopClearIngress? ||
    h.ReleaseLoop? || h.ReleaseIngress? || h.ReleaseEvent? || h.ReleaseBridge?
  }

  predicate Reporting(h: Host) {
    h.StopReport? || h.StopRunning? || Gathers(h) || Clearing(h)
  }

  ghost predicate InvControl(c: Control, cycle: nat, backends: nat) {
    && c.loopRef == LoopUp(c.host, c.running)
    && c.ingressRef == (if IngressUp(c.host, c.running) then Some(cycle) else None)
    && c.eventRef == (if EventUp(c.host, c.running) then Some(cycle) else None)
    && BridgeOk(c) && AcceptOk(c) && RunningOk(c)
    && (InStart(c.host) ==> !c.closed)
    && (forall r | 0 <= r < |c.reporters| :: c.reporters[r] < backends)
  }

  ghost predicate InvIngress(ing: Ingress, h: Host, running: bool) {
    && |ing.items| <= ing.maxsize
    && ing.entered == ing.moved + ing.dropped + ing.items
    && (ing.dropped != [] ==> Clearing(h) || Stale(h, running))
  }

  /** A record is between the queues only inside the bridge's loop or stop's flush. */
  ghost predicate InvHand(hand: Hand, c: Control, moved: seq<LogRecord>, backends: nat) {
    hand.Holding? ==>
      && (c.bridge.Moving? || c.host.StopFlush?)
      && hand.next < backends && moved != [] && moved[|moved| - 1] == hand.record
  }

  /** An emitter that holds the newest ingress also holds the newest event. */
  ghost predicate EmitterOk(e: Emitter, cycle: nat) {
    match e
    case AtReadLoop(_, ingress) => ingress.Some? ==> ingress.value <= cycle
    case AtReadEvent(_, ingress, _) => ingress.Some? ==> ingress.value <= cycle
    case AtPut(_, into, event) => into <= event <= cycle
    case AtWake(_, event) => event <= cycle
    case _ => true
  }

  ghost predicate InvEmitters(emitters: seq<Emitter>, cycle: nat) {
    forall i | 0 <= i < |emitters| :: EmitterOk(emitters[i], cycle)
  }

  ghost predicate Waking(emitters: seq<Emitter>, cycle: nat) {
    exists i | 0 <= i < |emitters| :: emitters[i].AtWake? && emitters[i].event == cycle
  }

  /** No wakeup is lost: a non-empty ingress and an idle bridge mean that a wakeup is on its way. */
  ghost predicate InvWake(s: State) {
    s.ing.items != [] && (s.ctl.bridge.Waiting? || s.ctl.host.StartEvent? || s.ctl.host.StartBridge?) ==>
      s.ing.wake || 0 < s.ing.pendingWakes || Waking(s.emitters, s.ing.cycle)
  }

  ghost predicate WorkerOk(h: Host, running: bool, b: Backend) {
    && (b.hand.Some? ==> b.worker.Alive? || TearsDown(b.worker))
    && (!b.worker.NoTask? && !b.worker.Alive? ==> Gathers(h))
    && (b.worker.Recancelled? ==> h.StopRegather?)
    && (b.worker.Finished? ==> b.queue == [])
    && (Quiet(h, running) || Clearing(h) ==> b.worker.NoTask?)
  }

  /** `unfinished` is exact, the bound holds, and an unstarted or stopped handler has empty queues. */
  ghost predicate CountOk(h: Host, running: bool, i: nat, b: Backend) {
    && b.unfinished == |b.queue| + |InHand(b)|
    && (0 < b.maxsize ==> |b.queue| <= b.maxsize)
    && (Quiet(h, running) ==> b.queue == [])
    && (Clearing(h) && (h.StopClearQueue? ==> i < h.backend) ==> b.queue == [])
  }

  ghost predicate DrainOk(h: Host, running: bool, b: Backend) {
    && (h.StopReport? ==> b.drain.Drained?)
    && (h.StopDrain? ==> !b.drain.NotDraining?)
    && (h.StopDrain? || h == StopReport(0, 0) ==>
          (b.drain.Joined? || b.drain == Drained(COMPLETED)) ==> b.unfinished == 0)
    && (h == StopReport(0, 0) ==> b.statuses == [])
    && (b.statuses != [] ==> Reporting(h) || Stale(h, running))
    && (b.discarded != [] ==> Clearing(h) || Stale(h, running))
  }

  /** Where the records of one backend are. */
  ghost predicate FlowOk(moved: seq<LogRecord>, hand: Hand, i: nat, b: Backend) {
    && moved == b.missed + Offered(b.offers) + PendingFor(hand, i)
    && Accepted(b.offers) + b.statuses == Acked(b.acks) + InHand(b) + b.discarded + b.queue
  }

  ghost predicate BackendOk(h: Host, running: bool, moved: seq<LogRecord>, hand: Hand, i: nat, b: Backend) {
    WorkerOk(h, running, b) && CountOk(h, running, i, b) && DrainOk(h, running, b) && FlowOk(moved, hand, i, b)
  }

  ghost predicate InvBackends(s: State) {
    forall i | 0 <= i < |s.backends| ::
      BackendOk(s.ctl.host, s.ctl.running, s.ing.moved, s.hand, i, s.backends[i])
  }

  ghost predicate UniqueNames(bs: seq<Backend>) {
    forall i, j | 0 <= i < j < |bs| :: bs[i].name != bs[j].name
  }

  ghost predicate Inv(s: State) {
    && 0 < s.ing.maxsize
    && InvControl(s.ctl, s.ing.cycle, |s.backends|)
    && InvIngress(s.ing, s.ctl.host, s.ctl.running)
    && InvHand(s.hand, s.ctl, s.ing.moved, |s.backends|)
    && InvEmitters(s.emitters, s.ing.cycle)
    && InvWake(s)
    && InvBackends(s)
    && UniqueNames(s.backends)
  }

  lemma InitialOk(maxsize: int)
    requires 0 < maxsize
    ensures Inv(Initial(maxsize))
  {
  }
}
