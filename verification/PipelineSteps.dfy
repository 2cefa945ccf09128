/** Every step of the pipeline keeps `Inv`, hence so does every run. */
module PipelineSteps {
  import opened Records
  import opened QueueBackend
  import opened Pipeline
  import opened PipelineInvariant
  import opened Sequences

  // ----- emitters -----

  /** `Waking` survives an update of an emitter that is not itself about to wake the bridge. */
  lemma WakingKept(emitters: seq<Emitter>, i: nat, e: Emitter, cycle: nat)
    requires i < |emitters| && !emitters[i].AtWake?
    requires Waking(emitters, cycle)
    ensures Waking(emitters[i := e], cycle)
  {
    var k :| 0 <= k < |emitters| && emitters[k].AtWake? && emitters[k].event == cycle;
    assert emitters[i := e][k] == emitters[k];
  }

  lemma EmitterKept(s: State, i: nat)
    requires Inv(s)
    requires i < |s.emitters| && !s.emitters[i].Returned?
    ensures Inv(EmitterStep(s, i))
  {
    var e := s.emitters[i];
    var s' := EmitterStep(s, i);
    assert EmitterOk(e, s.ing.cycle);
    assert EmitterOk(s'.emitters[i], s.ing.cycle);
    assert s'.emitters[i].AtWake? && s'.emitters[i].event == s.ing.cycle && e.AtPut? ==> Waking(s'.emitters, s.ing.cycle);
    if Waking(s.emitters, s.ing.cycle) && !e.AtWake? {
      WakingKept(s.emitters, i, s'.emitters[i], s.ing.cycle);
    }
    if e.AtWake? && e.event != s.ing.cycle && Waking(s.emitters, s.ing.cycle) {
      var k :| 0 <= k < |s.emitters| && s.emitters[k].AtWake? && s.emitters[k].event == s.ing.cycle;
      assert s'.emitters[k] == s.emitters[k];
    }
  }

  lemma NewEmitterKept(s: State, record: LogRecord)
    requires Inv(s)
    ensures Inv(s.(emitters := s.emitters + [AtGate(record)]))
  {
    if Waking(s.emitters, s.ing.cycle) {
      var k :| 0 <= k < |s.emitters| && s.emitters[k].AtWake? && s.emitters[k].event == s.ing.cycle;
      assert (s.emitters + [AtGate(record)])[k] == s.emitters[k];
    }
  }

  lemma StaleFullKept(s: State, i: nat)
    requires Inv(s)
    requires i < |s.emitters| && s.emitters[i].AtPut?
    ensures Inv(s.(emitters := s.emitters[i := Returned(s.emitters[i].record, Overflow)]))
  {
    if Waking(s.emitters, s.ing.cycle) {
      WakingKept(s.emitters, i, Returned(s.emitters[i].record, Overflow), s.ing.cycle);
    }
  }

  // ----- one backend -----

  lemma OfferedSnoc(os: seq<Offer>, o: Offer)
    ensures Offered(os + [o]) == Offered(os) + [o.record]
    ensures Accepted(os + [o]) == Accepted(os) + (if o.accepted then [o.record] else [])
    ensures Refused(os + [o]) == Refused(os) + (if o.accepted then [] else [o.record])
  {
    assert (os + [o])[..|os|] == os;
  }

  lemma AckedSnoc(acks: seq<Ack>, a: Ack)
    ensures Acked(acks + [a]) == Acked(acks) + [a.record]
    ensures DeliveredOf(acks + [a]) == DeliveredOf(acks) + (if a.outcome == Delivered then [a.record] else [])
  {
    assert (acks + [a])[..|acks|] == acks;
  }

  lemma GetOk(h: Host, running: bool, moved: seq<LogRecord>, hand: Hand, i: nat, b: Backend)
    requires BackendOk(h, running, moved, hand, i, b)
    requires b.worker.Alive? && b.hand == None && b.queue != []
    requires HostAwaits(h)
    ensures BackendOk(h, running, moved, hand, i, GetTo(b))
  {
    hide Accepted, Offered, Acked, PendingFor;
    assert b.queue == [b.queue[0]] + b.queue[1..];
  }

  lemma AckOk(h: Host, running: bool, moved: seq<LogRecord>, hand: Hand, i: nat, b: Backend, outcome: Outcome)
    requires BackendOk(h, running, moved, hand, i, b)
    requires b.hand.Some?
    requires HostAwaits(h)
    ensures BackendOk(h, running, moved, hand, i, AckBy(b, outcome))
  {
    AckFlow(moved, hand, i, b, outcome);
    hide FlowOk;
  }

  lemma AckFlow(moved: seq<LogRecord>, hand: Hand, i: nat, b: Backend, outcome: Outcome)
    requires FlowOk(moved, hand, i, b) && b.hand.Some?
    ensures FlowOk(moved, hand, i, AckBy(b, outcome))
  {
    AckedSnoc(b.acks, Ack(b.hand.value, outcome));
    hide Accepted, Offered, Acked, PendingFor;
    assert Acked(b.acks) + InHand(b) == Acked(AckBy(b, outcome).acks) + InHand(AckBy(b, outcome));
  }

  lemma OfferFlow(moved: seq<LogRecord>, hand: Hand, b: Backend, after: Hand)
    requires hand.Holding? && FlowOk(moved, hand, hand.next, b)
    requires after == Empty || after == Holding(hand.record, hand.next + 1)
    requires b.discarded == [] && b.statuses == []
    ensures FlowOk(moved, after, hand.next, OfferTo(b, hand.record))
  {
    var b' := OfferTo(b, hand.record);
    OfferedSnoc(b.offers, Offer(hand.record, !QueueFull(b)));
    hide Offered, Accepted, Acked;
    assert PendingFor(after, hand.next) == [];
    ConcatAssoc(b.missed, Offered(b.offers), [hand.record]);
    assert b'.offers == b.offers + [Offer(hand.record, !QueueFull(b))];
    assert Accepted(b.offers) == Accepted(b.offers) + b.statuses;
    assert Acked(b.acks) + InHand(b) + b.discarded == Acked(b.acks) + InHand(b);
    ConcatAssoc(Acked(b.acks) + InHand(b), b.queue, [hand.record]);
    assert Accepted(b'.offers) + b'.statuses == Accepted(b'.offers);
  }

  lemma OfferOk(h: Host, running: bool, moved: seq<LogRecord>, hand: Hand, b: Backend, after: Hand)
    requires hand.Holding?
    requires BackendOk(h, running, moved, hand, hand.next, b)
    requires after == Empty || after == Holding(hand.record, hand.next + 1)
    requires !Quiet(h, running) && !Clearing(h) && !Reporting(h) && !h.StopDrain?
    ensures BackendOk(h, running, moved, after, hand.next, OfferTo(b, hand.record))
  {
    OfferFlow(moved, hand, b, after);
  }

  /** The put into backend `hand.next` means nothing to the others. */
  lemma OfferElsewhereOk(h: Host, running: bool, moved: seq<LogRecord>, hand: Hand, after: Hand, i: nat, n: nat, b: Backend)
    requires hand.Holding? && i < n && i != hand.next
    requires after == if hand.next + 1 == n then Empty else Holding(hand.record, hand.next + 1)
    requires BackendOk(h, running, moved, hand, i, b)
    ensures BackendOk(h, running, moved, after, i, b)
  {
    assert PendingFor(hand, i) == PendingFor(after, i);
  }

  lemma StatusFlow(moved: seq<LogRecord>, hand: Hand, i: nat, b: Backend, r: LogRecord)
    requires FlowOk(moved, hand, i, b) && b.discarded == []
    ensures FlowOk(moved, hand, i, StatusTo(b, r))
  {
    assert Accepted(b.offers) + (b.statuses + [r]) == Accepted(b.offers) + b.statuses + [r];
    assert Acked(b.acks) + InHand(b) + b.discarded + (b.queue + [r])
        == Acked(b.acks) + InHand(b) + b.discarded + b.queue + [r];
  }

  lemma StatusTask(h: Host, after: Host, running: bool, i: nat, b: Backend, r: LogRecord)
    requires h.StopReport? && after.StopReport? && after != StopReport(0, 0)
    requires WorkerOk(h, running, b) && CountOk(h, running, i, b) && DrainOk(h, running, b)
    ensures var b' := StatusTo(b, r);
      WorkerOk(after, running, b') && CountOk(after, running, i, b') && DrainOk(after, running, b')
  {
  }

  lemma StatusOk(h: Host, after: Host, running: bool, moved: seq<LogRecord>, hand: Hand, i: nat, b: Backend, r: LogRecord)
    requires h.StopReport? && after.StopReport? && after != StopReport(0, 0)
    requires BackendOk(h, running, moved, hand, i, b)
    ensures BackendOk(after, running, moved, hand, i, StatusTo(b, r))
  {
    StatusFlow(moved, hand, i, b, r);
    StatusTask(h, after, running, i, b, r);
    hide FlowOk, WorkerOk, CountOk, DrainOk;
  }

  lemma DiscardOk(h: Host, running: bool, moved: seq<LogRecord>, hand: Hand, b: Backend)
    requires h.StopClearQueue? && b.queue != []
    requires BackendOk(h, running, moved, hand, h.backend, b)
    ensures BackendOk(h, running, moved, hand, h.backend, DiscardFrom(b))
  {
    hide Accepted, Offered, Acked, PendingFor;
    assert b.queue == [b.queue[0]] + b.queue[1..];
  }

  /** Replacing one backend by a sound one of the same name. */
  lemma SetBackendKept(s: State, b: nat, to: Backend)
    requires Inv(s) && b < |s.backends|
    requires to.name == s.backends[b].name
    requires BackendOk(s.ctl.host, s.ctl.running, s.ing.moved, s.hand, b, to)
    ensures Inv(SetBackend(s, b, to))
  {
    hide BackendOk, EmitterOk;
  }

  // ----- the bridge and stop's flush -----

  lemma MoveGetKept(s: State)
    requires Inv(s) && Enabled(s, MoveGet)
    ensures Inv(Apply(s, MoveGet))
  {
    var s' := Apply(s, MoveGet);
    assert s.ing.dropped == [];
    assert s.ing.items == [s.ing.items[0]] + s.ing.items[1..];
    forall i | 0 <= i < |s'.backends|
      ensures BackendOk(s'.ctl.host, s'.ctl.running, s'.ing.moved, s'.hand, i, s'.backends[i])
    {
      assert BackendOk(s.ctl.host, s.ctl.running, s.ing.moved, s.hand, i, s.backends[i]);
    }
  }

  lemma MovePutKept(s: State, b: nat)
    requires Inv(s) && Enabled(s, MovePut(b))
    ensures Inv(Apply(s, MovePut(b)))
  {
    hide BackendOk, EmitterOk;
    var s' := Apply(s, MovePut(b));
    OfferOk(s.ctl.host, s.ctl.running, s.ing.moved, s.hand, s.backends[b], s'.hand);
    forall i | 0 <= i < |s'.backends|
      ensures BackendOk(s.ctl.host, s.ctl.running, s.ing.moved, s'.hand, i, s'.backends[i])
    {
      if i != b {
        OfferElsewhereOk(s.ctl.host, s.ctl.running, s.ing.moved, s.hand, s'.hand, i, |s.backends|, s.backends[i]);
      }
    }
    assert UniqueNames(s'.backends);
  }

  lemma BridgeKept(s: State, a: Action)
    requires a.BridgeWake? || a.BridgeEmpty? || a.BridgeDie? || a.WakeCallback?
    requires Inv(s) && Enabled(s, a)
    ensures Inv(Apply(s, a))
  {
  }

  // ----- the handler's own steps -----

  /** A step of the handler's attributes that no queue, emitter or worker takes notice of. */
  lemma ControlKept(s: State, c: Control)
    requires Inv(s)
    requires InvControl(c, s.ing.cycle, |s.backends|)
    requires InvHand(s.hand, c, s.ing.moved, |s.backends|)
    requires InvIngress(s.ing, c.host, c.running)
    requires InvWake(s.(ctl := c))
    requires forall i | 0 <= i < |s.backends| ::
      BackendOk(c.host, c.running, s.ing.moved, s.hand, i, s.backends[i])
    ensures Inv(s.(ctl := c))
  {
  }

  lemma SimpleCallKept(s: State, a: Action)
    requires a.CloseCall? || a.RegisterReporter?
    requires Inv(s) && Enabled(s, a)
    ensures Inv(Apply(s, a))
  {
  }

  lemma HostCallKept(s: State, a: Action)
    requires a.StartCall? || a.StopCall?
    requires Inv(s) && Enabled(s, a)
    ensures Inv(Apply(s, a))
  {
    hide FlowOk, EmitterOk;
    var c := Apply(s, a).ctl;
    assert InvControl(c, s.ing.cycle, |s.backends|);
    forall i | 0 <= i < |s.backends|
      ensures BackendOk(c.host, c.running, s.ing.moved, s.hand, i, s.backends[i])
    {
      assert BackendOk(s.ctl.host, s.ctl.running, s.ing.moved, s.hand, i, s.backends[i]);
    }
    ControlKept(s, c);
  }

  lemma RegatherKept(s: State)
    requires Inv(s) && Enabled(s, Regather)
    ensures Inv(Apply(s, Regather))
  {
    hide FlowOk, EmitterOk;
    var c := s.ctl.(host := StopRegather);
    forall i | 0 <= i < |s.backends|
      ensures BackendOk(c.host, c.running, s.ing.moved, s.hand, i, s.backends[i])
    {
      assert BackendOk(s.ctl.host, s.ctl.running, s.ing.moved, s.hand, i, s.backends[i]);
    }
    ControlKept(s, c);
  }

  lemma RegisterKept(s: State, a: Action)
    requires a.Register?
    requires Inv(s) && Enabled(s, a)
    ensures Inv(Apply(s, a))
  {
    var s' := Apply(s, a);
    assert s.hand == Empty;
    forall i | 0 <= i < |s'.backends|
      ensures BackendOk(s'.ctl.host, s'.ctl.running, s'.ing.moved, s'.hand, i, s'.backends[i])
    {
      if i < |s.backends| {
        assert BackendOk(s.ctl.host, s.ctl.running, s.ing.moved, s.hand, i, s.backends[i]);
      }
    }
  }

  /** The attribute-only statements keep the part of the invariant that speaks of the attributes. */
  lemma ControlStepOk(c: Control, cycle: nat, backends: nat)
    requires InvControl(c, cycle, backends)
    requires c.host.StopAwaitBridge? ==> c.bridge.Dead?
    requires !c.host.Idle? && !c.host.StartIngress? && !c.host.StartWorkers? && !c.host.StopFlush?
    requires !Gathers(c.host) && !c.host.StopReport? && !c.host.StopClearQueue? && !c.host.StopClearIngress?
    ensures InvControl(ControlStep(c, cycle), cycle, backends)
  {
  }

  lemma ControlHostKept(s: State)
    requires Inv(s) && HostReady(s)
    requires var h := s.ctl.host;
      !h.StartIngress? && !h.StartWorkers? && !h.StopFlush? &&
      !Gathers(h) && !h.StopReport? && !h.StopClearQueue? && !h.StopClearIngress?
    ensures Inv(HostStepped(s))
  {
    var c := ControlStep(s.ctl, s.ing.cycle);
    ControlStepOk(s.ctl, s.ing.cycle, |s.backends|);
    hide BackendOk, ControlStep;
    forall i | 0 <= i < |s.backends|
      ensures BackendOk(c.host, c.running, s.ing.moved, s.hand, i, s.backends[i])
    {
      assert BackendOk(s.ctl.host, s.ctl.running, s.ing.moved, s.hand, i, s.backends[i]);
      ControlBackendOk(s.ctl, s.ing.cycle, s.ing.moved, s.hand, i, s.backends[i]);
    }
    ControlAlone(s);
    hide HostStepped, HostReady;
    ControlKept(s, c);
  }

  lemma ControlAlone(s: State)
    requires HostReady(s)
    requires var h := s.ctl.host;
      !h.StartIngress? && !h.StartWorkers? && !h.StopFlush? &&
      !Gathers(h) && !h.StopReport? && !h.StopClearQueue? && !h.StopClearIngress?
    ensures HostStepped(s) == s.(ctl := ControlStep(s.ctl, s.ing.cycle))
  {
    hide ControlStep;
  }

  lemma ControlBackendOk(c: Control, cycle: nat, moved: seq<LogRecord>, hand: Hand, i: nat, b: Backend)
    requires !c.host.Idle? && !c.host.StartIngress? && !c.host.StartWorkers? && !c.host.StopFlush?
    requires !Gathers(c.host) && !c.host.StopReport? && !c.host.StopClearQueue? && !c.host.StopClearIngress?
    requires BridgeOk(c) && RunningOk(c) && (c.host.StopDrain? ==> b.drain.Drained?)
    requires BackendOk(c.host, c.running, moved, hand, i, b)
    ensures var d := ControlStep(c, cycle); BackendOk(d.host, d.running, moved, hand, i, b)
  {
    hide FlowOk;
  }

  lemma StartIngressKept(s: State)
    requires Inv(s) && s.ctl.host.StartIngress?
    ensures Inv(HostStepped(s))
  {
    var s' := HostStepped(s);
    assert s.hand == Empty;
    forall i | 0 <= i < |s'.backends|
      ensures BackendOk(s'.ctl.host, s'.ctl.running, s'.ing.moved, s'.hand, i, s'.backends[i])
      ensures s'.backends[i].name == s.backends[i].name
    {
      assert BackendOk(s.ctl.host, s.ctl.running, s.ing.moved, s.hand, i, s.backends[i]);
    }
    forall e | 0 <= e < |s'.emitters| ensures EmitterOk(s'.emitters[e], s'.ing.cycle) {
      assert EmitterOk(s.emitters[e], s.ing.cycle);
    }
  }

  lemma StartWorkersKept(s: State)
    requires Inv(s) && s.ctl.host.StartWorkers?
    ensures Inv(HostStepped(s))
  {
    var s' := HostStepped(s);
    forall i | 0 <= i < |s'.backends|
      ensures BackendOk(Idle, true, s.ing.moved, s.hand, i, s'.backends[i])
      ensures s'.backends[i].name == s.backends[i].name
    {
      assert BackendOk(StartWorkers, true, s.ing.moved, s.hand, i, s.backends[i]);
    }
  }

  lemma FlushEndKept(s: State)
    requires Inv(s) && HostReady(s) && s.ctl.host.StopFlush?
    ensures Inv(HostStepped(s))
  {
    var s' := HostStepped(s);
    forall i | 0 <= i < |s'.backends|
      ensures BackendOk(StopDrain, true, s.ing.moved, s.hand, i, s'.backends[i])
      ensures s'.backends[i].name == s.backends[i].name
    {
      assert BackendOk(StopFlush, true, s.ing.moved, s.hand, i, s.backends[i]);
    }
  }

  lemma GatherEndKept(s: State)
    requires Inv(s) && HostReady(s) && Gathers(s.ctl.host)
    ensures Inv(HostStepped(s))
  {
    var s' := HostStepped(s);
    forall i | 0 <= i < |s'.backends|
      ensures BackendOk(StopClearQueue(0), false, s.ing.moved, s.hand, i, s'.backends[i])
      ensures s'.backends[i].name == s.backends[i].name
    {
      assert BackendOk(s.ctl.host, false, s.ing.moved, s.hand, i, s.backends[i]);
    }
  }

  lemma ReportAdvanceKept(s: State, after: Host)
    requires Inv(s) && s.ctl.host.StopReport?
    requires after == StopRunning || (after.StopReport? && after != StopReport(0, 0))
    ensures Inv(s.(ctl := s.ctl.(host := after)))
  {
    var c := s.ctl.(host := after);
    forall i | 0 <= i < |s.backends|
      ensures BackendOk(c.host, c.running, s.ing.moved, s.hand, i, s.backends[i])
    {
      assert BackendOk(s.ctl.host, s.ctl.running, s.ing.moved, s.hand, i, s.backends[i]);
    }
    ControlKept(s, c);
  }

  lemma ReportKept(s: State)
    requires Inv(s) && HostReady(s) && s.ctl.host.StopReport?
    ensures Inv(HostStepped(s))
  {
    var h, s' := s.ctl.host, HostStepped(s);
    ReportAdvanceKept(s, s'.ctl.host);
    if h.reporter < |s.ctl.reporters| && h.result < |s.backends| {
      var b := s.ctl.reporters[h.reporter];
      var r := StatusRecord(DrainResult(s.backends[h.result]));
      StatusOk(h, s'.ctl.host, s.ctl.running, s.ing.moved, s.hand, b, s.backends[b], r);
      SetBackendKept(s.(ctl := s'.ctl), b, StatusTo(s.backends[b], r));
    }
  }

  lemma ClearQueueKept(s: State)
    requires Inv(s) && s.ctl.host.StopClearQueue?
    ensures Inv(HostStepped(s))
  {
    hide FlowOk, EmitterOk;
    var b := s.ctl.host.backend;
    if b < |s.backends| && s.backends[b].queue != [] {
      DiscardOk(s.ctl.host, s.ctl.running, s.ing.moved, s.hand, s.backends[b]);
      SetBackendKept(s, b, DiscardFrom(s.backends[b]));
    } else {
      var c := HostStepped(s).ctl;
      forall i | 0 <= i < |s.backends|
        ensures BackendOk(c.host, c.running, s.ing.moved, s.hand, i, s.backends[i])
      {
        assert BackendOk(s.ctl.host, s.ctl.running, s.ing.moved, s.hand, i, s.backends[i]);
      }
      ControlKept(s, c);
    }
  }

  lemma ClearIngressKept(s: State)
    requires Inv(s) && s.ctl.host.StopClearIngress?
    ensures Inv(HostStepped(s))
  {
    hide FlowOk, EmitterOk;
    if s.ing.items != [] {
      assert s.ing.items == [s.ing.items[0]] + s.ing.items[1..];
    } else {
      var c := HostStepped(s).ctl;
      forall i | 0 <= i < |s.backends|
        ensures BackendOk(c.host, c.running, s.ing.moved, s.hand, i, s.backends[i])
      {
        assert BackendOk(s.ctl.host, s.ctl.running, s.ing.moved, s.hand, i, s.backends[i]);
      }
      ControlKept(s, c);
    }
  }

  lemma HostKept(s: State)
    requires Inv(s) && HostReady(s)
    ensures Inv(HostStepped(s))
  {
    hide Inv;
    match s.ctl.host
    case StartIngress => StartIngressKept(s);
    case StartWorkers => StartWorkersKept(s);
    case StopFlush => FlushEndKept(s);
    case StopGather => GatherEndKept(s);
    case StopRegather => GatherEndKept(s);
    case StopReport(_, _) => ReportKept(s);
    case StopClearQueue(_) => ClearQueueKept(s);
    case StopClearIngress => ClearIngressKept(s);
    case _ => ControlHostKept(s);
  }

  lemma WorkerGetKept(s: State, b: nat)
    requires Inv(s) && Enabled(s, WorkerGet(b))
    ensures Inv(SetBackend(s, b, GetTo(s.backends[b])))
  {
    GetOk(s.ctl.host, s.ctl.running, s.ing.moved, s.hand, b, s.backends[b]);
    SetBackendKept(s, b, GetTo(s.backends[b]));
  }

  lemma WorkerAckKept(s: State, b: nat, outcome: Outcome)
    requires Inv(s) && Enabled(s, WorkerAck(b, outcome))
    ensures Inv(SetBackend(s, b, AckBy(s.backends[b], outcome)))
  {
    AckOk(s.ctl.host, s.ctl.running, s.ing.moved, s.hand, b, s.backends[b], outcome);
    SetBackendKept(s, b, AckBy(s.backends[b], outcome));
  }

  /** A worker ends, or is told to: both only happen in stop's gather. */
  lemma WorkerEndKept(s: State, b: nat, to: WorkerTask)
    requires Inv(s) && b < |s.backends|
    requires to.Cancelling? || (to.Recancelled? && s.ctl.host.StopRegather?) || (TaskEnded(to) && s.backends[b].hand == None)
    requires to.Finished? ==> s.backends[b].queue == []
    requires !to.NoTask? && (TearsDown(s.backends[b].worker) || (s.backends[b].worker.Alive? && LoopFree(s) && !s.ctl.running))
    ensures Inv(SetBackend(s, b, s.backends[b].(worker := to)))
  {
    assert BackendOk(s.ctl.host, s.ctl.running, s.ing.moved, s.hand, b, s.backends[b]);
    SetBackendKept(s, b, s.backends[b].(worker := to));
  }

  lemma WorkerKept(s: State, a: Action)
    requires a.WorkerGet? || a.WorkerAck? || a.WorkerExit? || a.WorkerCancel? || a.WorkerDie?
    requires Inv(s) && Enabled(s, a)
    ensures Inv(Apply(s, a))
  {
    match a
    case WorkerGet(b) => WorkerGetKept(s, b);
    case WorkerAck(b, outcome) => WorkerAckKept(s, b, outcome);
    case WorkerCancel(b) => WorkerEndKept(s, b, Cancelled(s.backends[b].worker));
    case WorkerExit(b) => WorkerEndKept(s, b, Finished);
    case WorkerDie(b) => WorkerEndKept(s, b, Died);
  }

  lemma DrainKept(s: State, a: Action)
    requires a.DrainJoin? || a.DrainReturn?
    requires Inv(s) && Enabled(s, a)
    ensures Inv(Apply(s, a))
  {
    assert BackendOk(s.ctl.host, s.ctl.running, s.ing.moved, s.hand, a.b, s.backends[a.b]);
    SetBackendKept(s, a.b, Apply(s, a).backends[a.b]);
  }

  lemma LoopStepKept(s: State, a: Action)
    requires a.WakeCallback? || a.BridgeWake? || a.BridgeEmpty? || a.BridgeDie? || a.MoveGet? || a.MovePut?
          || a.DrainJoin? || a.DrainReturn? || a.WorkerGet? || a.WorkerAck? || a.WorkerExit? || a.WorkerCancel?
          || a.WorkerDie?
    requires Inv(s) && Enabled(s, a)
    ensures Inv(Apply(s, a))
  {
    hide Inv;
    if a.MoveGet? {
      MoveGetKept(s);
    } else if a.MovePut? {
      MovePutKept(s, a.b);
    } else if a.DrainJoin? || a.DrainReturn? {
      DrainKept(s, a);
    } else if a.WakeCallback? || a.BridgeWake? || a.BridgeEmpty? || a.BridgeDie? {
      BridgeKept(s, a);
    } else {
      WorkerKept(s, a);
    }
  }

  lemma StepKeepsInv(s: State, a: Action)
    requires Inv(s) && Enabled(s, a)
    ensures Inv(Apply(s, a))
  {
    hide Inv;
    match a
    case EmitCall(record) => NewEmitterKept(s, record);
    case EmitStep(i) => EmitterKept(s, i);
    case EmitStaleFull(i) => StaleFullKept(s, i);
    case Register(_, _, _) => RegisterKept(s, a);
    case RegisterReporter(_) => SimpleCallKept(s, a);
    case CloseCall => SimpleCallKept(s, a);
    case StartCall => HostCallKept(s, a);
    case StopCall => HostCallKept(s, a);
    case HostStep => HostKept(s);
    case Regather => RegatherKept(s);
    case _ => LoopStepKept(s, a);
  }

  lemma {:induction false} RunKeepsInv(s: State, acts: seq<Action>)
    requires Inv(s) && IsRun(s, acts)
    ensures Inv(Exec(s, acts))
  {
    hide Inv, Enabled;
    if acts != [] {
      var before := acts[..|acts| - 1];
      RunKeepsInv(s, before);
      StepKeepsInv(Exec(s, before), acts[|acts| - 1]);
    }
  }
}
