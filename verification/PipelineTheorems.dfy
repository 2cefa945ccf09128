/** Safety of the pipeline over every run and every interleaving. */
module PipelineTheorems {
  import opened Records
  import opened Sequences
  import opened QueueBackend
  import opened Pipeline
  import opened PipelineInvariant
  import opened PipelineSteps

  /** `s` is a state some run of a fresh handler ends in. */
  ghost predicate Reachable(s: State) {
    exists maxsize: int, acts: seq<Action> ::
      0 < maxsize && IsRun(Initial(maxsize), acts) && s == Exec(Initial(maxsize), acts)
  }

  lemma ReachableInv(s: State)
    requires Reachable(s)
    ensures Inv(s)
  {
    var maxsize: int, acts: seq<Action> :|
      0 < maxsize && IsRun(Initial(maxsize), acts) && s == Exec(Initial(maxsize), acts);
    InitialOk(maxsize);
    RunKeepsInv(Initial(maxsize), acts);
  }

  /** Runs lead from reachable states to reachable states. */
  lemma ReachableOnwards(s: State, acts: seq<Action>)
    requires Reachable(s) && IsRun(s, acts)
    ensures Reachable(Exec(s, acts))
  {
    hide IsRun, Exec;
    var maxsize: int, before: seq<Action> :|
      0 < maxsize && IsRun(Initial(maxsize), before) && s == Exec(Initial(maxsize), before);
    RunConcat(Initial(maxsize), before, acts);
  }

  ghost predicate ReachableBackend(s: State, b: nat) {
    Reachable(s) && b < |s.backends|
  }

  lemma BackendInv(s: State, b: nat)
    requires ReachableBackend(s, b)
    ensures BackendOk(s.ctl.host, s.ctl.running, s.ing.moved, s.hand, b, s.backends[b])
  {
    ReachableInv(s);
  }

  // ----- conservation and order -----

  lemma {:induction false} OffersInOrder(os: seq<Offer>)
    ensures Subsequence(Accepted(os), Offered(os))
  {
    if os != [] {
      var front, r := os[..|os| - 1], os[|os| - 1].record;
      OffersInOrder(front);
      SubsequenceSnoc(Accepted(front), Offered(front), r);
      assert Accepted(front) + [] == Accepted(front);
    }
  }

  lemma {:induction false} OffersSplit(os: seq<Offer>)
    ensures multiset(Accepted(os)) + multiset(Refused(os)) == multiset(Offered(os))
  {
    if os != [] {
      OffersSplit(os[..|os| - 1]);
    }
  }

  lemma {:induction false} DeliveredInOrder(acks: seq<Ack>)
    ensures Subsequence(DeliveredOf(acks), Acked(acks))
  {
    if acks != [] {
      var front, r := acks[..|acks| - 1], acks[|acks| - 1].record;
      DeliveredInOrder(front);
      SubsequenceSnoc(DeliveredOf(front), Acked(front), r);
      assert DeliveredOf(front) + [] == DeliveredOf(front);
    }
  }

  /**
   * Conservation.  For every backend, the records that entered the current ingress, together with
   * the status records of this shutdown, are exactly those that are in the ingress, in the bridge's
   * hand, in the backend's queue, in its worker's hand, acknowledged, refused by a full queue, or
   * discarded at teardown -- each as often as it entered.
   */
  lemma Conservation(s: State, i: nat)
    requires ReachableBackend(s, i)
    ensures var b := s.backends[i];
      multiset(s.ing.entered) + multiset(b.statuses)
      == multiset(s.ing.items) + multiset(PendingFor(s.hand, i)) + multiset(b.queue) + multiset(InHand(b))
       + multiset(Acked(b.acks)) + multiset(Refused(b.offers)) + multiset(b.discarded)
       + multiset(s.ing.dropped) + multiset(b.missed)
  {
    var b := s.backends[i];
    ReachableInv(s);
    OffersSplit(b.offers);
    EnteredParts(s, i);
    PutParts(b);
    Balance(multiset(s.ing.entered), multiset(b.statuses), multiset(Offered(b.offers)), multiset(Accepted(b.offers)),
            multiset(Refused(b.offers)), multiset(b.missed), multiset(PendingFor(s.hand, i)),
            multiset(s.ing.dropped), multiset(s.ing.items), multiset(Acked(b.acks)), multiset(InHand(b)),
            multiset(b.discarded), multiset(b.queue));
  }

  /** The three balances of ingress, offers and queue add up. */
  lemma Balance<T>(entered: multiset<T>, statuses: multiset<T>, offered: multiset<T>, accepted: multiset<T>,
                   refused: multiset<T>, missed: multiset<T>, pending: multiset<T>, dropped: multiset<T>,
                   items: multiset<T>, acked: multiset<T>, hand: multiset<T>, discarded: multiset<T>, queue: multiset<T>)
    requires entered == missed + offered + pending + dropped + items
    requires accepted + refused == offered
    requires accepted + statuses == acked + hand + discarded + queue
    ensures entered + statuses
         == items + pending + queue + hand + acked + refused + discarded + dropped + missed
  {
    var right := items + pending + queue + hand + acked + refused + discarded + dropped + missed;
    forall r: T ensures (entered + statuses)[r] == right[r] {
      assert (accepted + statuses)[r] == (acked + hand + discarded + queue)[r];
    }
  }

  lemma EnteredParts(s: State, i: nat)
    requires i < |s.backends| && InvIngress(s.ing, s.ctl.host, s.ctl.running)
    requires FlowOk(s.ing.moved, s.hand, i, s.backends[i])
    ensures var b := s.backends[i];
      multiset(s.ing.entered) == multiset(b.missed) + multiset(Offered(b.offers)) + multiset(PendingFor(s.hand, i))
                               + multiset(s.ing.dropped) + multiset(s.ing.items)
  {
  }

  lemma PutParts(b: Backend)
    requires Accepted(b.offers) + b.statuses == Acked(b.acks) + InHand(b) + b.discarded + b.queue
    ensures multiset(Accepted(b.offers)) + multiset(b.statuses)
         == multiset(Acked(b.acks)) + multiset(InHand(b)) + multiset(b.discarded) + multiset(b.queue)
  {
    assert multiset(Accepted(b.offers) + b.statuses) == multiset(Accepted(b.offers)) + multiset(b.statuses);
  }

  /**
   * When stop has returned, every record of the cycle has been acknowledged, refused, or discarded in the final
   * clearing -- or was put into the abandoned ingress by an emitter that stop could not wait for.
   */
  lemma StoppedConservation(s: State, i: nat)
    requires ReachableBackend(s, i) && s.ctl.host.Idle? && !s.ctl.running
    ensures var b := s.backends[i];
      multiset(s.ing.entered) + multiset(b.statuses)
      == multiset(Acked(b.acks)) + multiset(Refused(b.offers)) + multiset(b.discarded)
       + multiset(s.ing.dropped) + multiset(b.missed) + multiset(s.ing.items)
  {
    Conservation(s, i);
    StoppedNothingHeld(s, i);
    hide Acked, Refused;
  }

  lemma StoppedNothingHeld(s: State, i: nat)
    requires ReachableBackend(s, i) && s.ctl.host.Idle? && !s.ctl.running
    ensures PendingFor(s.hand, i) == [] && s.backends[i].queue == [] && InHand(s.backends[i]) == []
  {
    BackendInv(s, i);
    ReachableInv(s);
  }

  function TotalQueued(bs: seq<Backend>): nat {
    if bs == [] then 0 else TotalQueued(bs[..|bs| - 1]) + |bs[|bs| - 1].queue|
  }

  lemma {:induction false} TotalQueuedBound(bs: seq<Backend>, bound: nat)
    requires forall i | 0 <= i < |bs| :: |bs[i].queue| <= bound
    ensures TotalQueued(bs) <= |bs| * bound
  {
    if bs != [] {
      TotalQueuedBound(bs[..|bs| - 1], bound);
      assert |bs| * bound == (|bs| - 1) * bound + bound;
    }
  }

  /** With every queue built at the handler's bound, the ingress and the N queues hold (1+N) times it. */
  lemma BoundedMemory(s: State)
    requires Reachable(s)
    requires forall i | 0 <= i < |s.backends| :: s.backends[i].maxsize == s.ing.maxsize
    ensures |s.ing.items| + TotalQueued(s.backends) <= (1 + |s.backends|) * s.ing.maxsize
  {
    ReachableInv(s);
    forall i | 0 <= i < |s.backends| ensures |s.backends[i].queue| <= s.ing.maxsize {
      BackendInv(s, i);
    }
    TotalQueuedBound(s.backends, s.ing.maxsize);
    assert (1 + |s.backends|) * s.ing.maxsize == s.ing.maxsize + |s.backends| * s.ing.maxsize;
  }

  /**
   * FIFO fan-out.  A backend is offered the records in the order they entered the ingress, none
   * skipped; its put history is that order minus exactly the refused ones; what it acknowledged is
   * a prefix of its put history; what it delivered keeps that order.
   */
  lemma FifoFanOut(s: State, i: nat)
    requires ReachableBackend(s, i)
    ensures var b := s.backends[i];
      && b.missed + Offered(b.offers) + PendingFor(s.hand, i) + s.ing.dropped + s.ing.items == s.ing.entered
      && Subsequence(Accepted(b.offers), Offered(b.offers))
      && multiset(Accepted(b.offers)) + multiset(Refused(b.offers)) == multiset(Offered(b.offers))
      && Acked(b.acks) <= Accepted(b.offers) + b.statuses
      && Subsequence(DeliveredOf(b.acks), Accepted(b.offers) + b.statuses)
  {
    var b := s.backends[i];
    ReachableInv(s);
    OffersInOrder(b.offers);
    OffersSplit(b.offers);
    AcksInOrder(b);
  }

  lemma AcksInOrder(b: Backend)
    requires Accepted(b.offers) + b.statuses == Acked(b.acks) + InHand(b) + b.discarded + b.queue
    ensures Acked(b.acks) <= Accepted(b.offers) + b.statuses
    ensures Subsequence(DeliveredOf(b.acks), Accepted(b.offers) + b.statuses)
  {
    DeliveredInOrder(b.acks);
    var rest := InHand(b) + b.discarded + b.queue;
    assert Accepted(b.offers) + b.statuses == Acked(b.acks) + rest;
    SubsequenceAppend(DeliveredOf(b.acks), Acked(b.acks), rest);
  }

  /** A record is refused only by a queue that holds exactly its bound, and then nothing moves. */
  lemma OverflowPolicy(s: State, i: nat)
    requires ReachableBackend(s, i) && Enabled(s, MovePut(i))
    ensures var b, b' := s.backends[i], Apply(s, MovePut(i)).backends[i];
      if Refused(b'.offers) == Refused(b.offers)
      then b'.queue == b.queue + [s.hand.record] && (0 < b.maxsize ==> |b'.queue| <= b.maxsize)
      else 0 < b.maxsize == |b.queue| && b'.queue == b.queue && b'.unfinished == b.unfinished
  {
    BackendInv(s, i);
    OfferRefused(s.backends[i], s.hand.record);
    hide Refused, BackendOk, Reachable;
  }

  lemma OfferRefused(b: Backend, r: LogRecord)
    requires 0 < b.maxsize ==> |b.queue| <= b.maxsize
    ensures var b' := OfferTo(b, r);
      if Refused(b'.offers) == Refused(b.offers)
      then b'.queue == b.queue + [r] && (0 < b.maxsize ==> |b'.queue| <= b.maxsize)
      else 0 < b.maxsize == |b.queue| && b'.queue == b.queue && b'.unfinished == b.unfinished
  {
    OfferedSnoc(b.offers, Offer(r, !QueueFull(b)));
    assert |Refused(b.offers) + [r]| == |Refused(b.offers)| + 1;
  }

  // ----- acknowledgements -----

  /** The unfinished count is exact at every moment, so neither kind of `task_done` can underflow. */
  lemma AcknowledgeAccounting(s: State, i: nat)
    requires ReachableBackend(s, i)
    ensures var b := s.backends[i];
      && b.unfinished == |b.queue| + |InHand(b)|
      && (Enabled(s, WorkerAck(i, CutOff)) ==> 1 <= b.unfinished)
      && (s.ctl.host == StopClearQueue(i) && b.queue != [] ==> 1 <= b.unfinished)
      && (s.ctl.host.Idle? && !s.ctl.running ==> b.unfinished == 0 && b.queue == [] && b.hand == None)
  {
    BackendInv(s, i);
  }

  /**
   * Drain soundness.  Once `join()` has resumed, and until the first status record is put, the
   * queue stays fully acknowledged: everything the bridge or the flush ever moved into it has been
   * acknowledged in order, nothing more can be moved, and the raced records sit in the ingress.
   */
  lemma DrainSound(s: State, i: nat)
    requires ReachableBackend(s, i)
    requires s.ctl.host.StopDrain? || s.ctl.host == StopReport(0, 0)
    requires s.backends[i].drain.Joined? || s.backends[i].drain == Drained(COMPLETED)
    ensures var b := s.backends[i];
      && b.unfinished == 0 && b.queue == [] && b.hand == None
      && Acked(b.acks) == Accepted(b.offers)
      && s.ing.entered == b.missed + Offered(b.offers) + s.ing.items
      && s.ctl.bridge.Dead? && s.hand == Empty
  {
    hide Accepted, Offered, Acked, Reachable, InvEmitters, InvWake, UniqueNames;
    ReachableInv(s);
    var b := s.backends[i];
    assert BackendOk(s.ctl.host, s.ctl.running, s.ing.moved, s.hand, i, b);
    assert b.statuses == [] && b.discarded == [] && s.ing.dropped == [];
    assert Accepted(b.offers) + [] == Accepted(b.offers);
    assert Acked(b.acks) + [] + [] + [] == Acked(b.acks);
    assert s.ing.moved + [] + s.ing.items == s.ing.moved + s.ing.items;
    assert b.missed + Offered(b.offers) + [] == b.missed + Offered(b.offers);
  }

  // ----- no lost wakeup -----

  lemma NoLostWakeup(s: State)
    requires Reachable(s)
    requires s.ctl.bridge.Waiting? && s.ing.items != []
    ensures s.ing.wake || 0 < s.ing.pendingWakes || Waking(s.emitters, s.ing.cycle)
  {
    ReachableInv(s);
  }

  lemma EventWakes(s: State)
    requires s.ctl.bridge.Waiting? && LoopFree(s) && s.ing.wake
    ensures IsRun(s, [BridgeWake]) && Exec(s, [BridgeWake]).ctl.bridge.Moving?
  {
    RunCons(s, BridgeWake, []);
  }

  lemma CallbackWakes(s: State)
    requires s.ctl.bridge.Waiting? && LoopFree(s) && 0 < s.ing.pendingWakes
    ensures IsRun(s, [WakeCallback, BridgeWake]) && Exec(s, [WakeCallback, BridgeWake]).ctl.bridge.Moving?
  {
    EventWakes(Apply(s, WakeCallback));
    RunCons(s, WakeCallback, [BridgeWake]);
  }

  /** From any such state with a free loop at most three further steps put the bridge to work. */
  lemma BridgeCanWake(s: State) returns (acts: seq<Action>)
    requires Reachable(s)
    requires s.ctl.bridge.Waiting? && s.ing.items != [] && LoopFree(s)
    ensures |acts| <= 3 && IsRun(s, acts) && Exec(s, acts).ctl.bridge.Moving?
  {
    NoLostWakeup(s);
    if s.ing.wake {
      acts := [BridgeWake];
      EventWakes(s);
    } else if 0 < s.ing.pendingWakes {
      acts := [WakeCallback, BridgeWake];
      CallbackWakes(s);
    } else {
      var k: nat :| k < |s.emitters| && s.emitters[k].AtWake? && s.emitters[k].event == s.ing.cycle;
      var t := Apply(s, EmitStep(k));
      CallbackWakes(t);
      RunCons(s, EmitStep(k), [WakeCallback, BridgeWake]);
      acts := [EmitStep(k)] + [WakeCallback, BridgeWake];
    }
  }

  // ----- lifecycle -----

  /** An emitter that sees the accept gate open finds every reference in place. */
  lemma AcceptMeansReady(s: State)
    requires Reachable(s) && s.ctl.accept
    ensures s.ctl.loopRef && s.ctl.ingressRef == Some(s.ing.cycle) && s.ctl.eventRef == Some(s.ing.cycle)
    ensures s.ctl.bridge.Waiting? || s.ctl.bridge.Moving?
    ensures !s.ctl.closed
  {
    ReachableInv(s);
  }

  /** What a stopped handler looks like, next to one that was never started. */
  lemma StoppedIsFresh(s: State)
    requires Reachable(s) && s.ctl.host.Idle? && !s.ctl.running
    ensures s.ctl == Initial(s.ing.maxsize).ctl.(closed := s.ctl.closed, reporters := s.ctl.reporters)
    ensures s.hand == Empty && !HasTasks(s) && !Enabled(s, StopCall)
    ensures forall i | 0 <= i < |s.backends| ::
      var b := s.backends[i];
      ForgetCycle(b) == FreshBackend(b.name, b.displayName, b.maxsize, [])
  {
    ReachableInv(s);
    forall i | 0 <= i < |s.backends|
      ensures var b := s.backends[i]; ForgetCycle(b) == FreshBackend(b.name, b.displayName, b.maxsize, [])
      ensures s.backends[i].worker.NoTask?
    {
      BackendInv(s, i);
    }
  }

  lemma {:induction false} ClosedForGood(s: State, acts: seq<Action>)
    requires Inv(s) && s.ctl.closed && IsRun(s, acts)
    ensures var t := Exec(s, acts); t.ctl.closed && !t.ctl.accept
  {
    RunKeepsInv(s, acts);
    if acts != [] {
      var before := acts[..|acts| - 1];
      ClosedForGood(s, before);
      ClosedStep(Exec(s, before), acts[|acts| - 1]);
    }
  }

  lemma ClosedStep(s: State, a: Action)
    requires s.ctl.closed && Enabled(s, a)
    ensures Apply(s, a).ctl.closed
  {
    if a.HostStep? {
      ClosedHostStep(s);
    } else if a.EmitStep? {
      assert EmitterStep(s, a.i).ctl == s.ctl;
    }
  }

  lemma ClosedHostStep(s: State)
    requires s.ctl.closed && HostReady(s)
    ensures HostStepped(s).ctl.closed
  {
  }
}
