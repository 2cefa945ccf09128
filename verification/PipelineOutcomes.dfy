/** What becomes of a record at each decision, in terms of the queues' contents and the bounds they were given. */
module PipelineOutcomes {
  import opened Records
  import opened QueueBackend
  import opened Pipeline
  import opened PipelineInvariant
  import opened PipelineSteps
  import opened PipelineTheorems

  // ----- emit -----

  /** At the accept gate a record is turned away exactly when the gate is closed. */
  lemma GateDecides(s: State, i: nat)
    requires i < |s.emitters| && s.emitters[i].AtGate?
    ensures Enabled(s, EmitStep(i))
    ensures var e := Apply(s, EmitStep(i)).emitters[i];
      if s.ctl.accept then e == AtReadIngress(s.emitters[i].record) else e == Returned(s.emitters[i].record, NotAccepting)
  {
  }

  /** Behind the gate it is turned away exactly when the ingress, the loop or the event was found released. */
  lemma ReferencesDecide(s: State, i: nat)
    requires i < |s.emitters| && s.emitters[i].AtReadEvent?
    ensures Enabled(s, EmitStep(i))
    ensures var e, e' := s.emitters[i], Apply(s, EmitStep(i)).emitters[i];
      if e.ingress.Some? && e.loopSeen && s.ctl.eventRef.Some?
      then e' == AtPut(e.record, e.ingress.value, s.ctl.eventRef.value)
      else e' == Returned(e.record, TornDown)
  {
  }

  /**
   * A record put into the present ingress is dropped exactly when the ingress holds as many as its bound; otherwise it
   * goes to the end and its emitter is about to wake the bridge.
   */
  lemma PutDecides(s: State, i: nat)
    requires Reachable(s) && i < |s.emitters| && s.emitters[i].AtPut? && s.emitters[i].into == s.ing.cycle
    ensures Enabled(s, EmitStep(i))
    ensures var e, t := s.emitters[i], Apply(s, EmitStep(i));
      if |s.ing.items| == s.ing.maxsize
      then t == s.(emitters := s.emitters[i := Returned(e.record, Overflow)])
      else t == s.(emitters := s.emitters[i := AtWake(e.record, e.event)],
                   ing := s.ing.(items := s.ing.items + [e.record], entered := s.ing.entered + [e.record]))
  {
    ReachableInv(s);
  }

  /** One put into an ingress of an earlier cycle: nothing of the present one changes. */
  lemma StalePut(s: State, i: nat)
    requires i < |s.emitters| && s.emitters[i].AtPut? && s.emitters[i].into != s.ing.cycle
    ensures Enabled(s, EmitStep(i)) && Enabled(s, EmitStaleFull(i))
    ensures var e := s.emitters[i];
      && Apply(s, EmitStep(i)) == s.(emitters := s.emitters[i := AtWake(e.record, e.event)])
      && Apply(s, EmitStaleFull(i)) == s.(emitters := s.emitters[i := Returned(e.record, Overflow)])
  {
  }

  /** A call of `emit` from the gate to its put. */
  function CallAlone(i: nat, r: LogRecord): seq<Action> {
    [EmitCall(r), EmitStep(i), EmitStep(i), EmitStep(i), EmitStep(i)]
  }

  lemma Leads(s: State, acts: seq<Action>, t: State, a: Action, u: State)
    requires IsRun(s, acts) && Exec(s, acts) == t && Enabled(t, a) && Apply(t, a) == u
    ensures IsRun(s, acts + [a]) && Exec(s, acts + [a]) == u
  {
    RunSnoc(s, acts, a);
  }

  /** `s` with the newest emitter at `e`. */
  function With(s: State, e: Emitter): State {
    s.(emitters := s.emitters + [e])
  }

  lemma Reads(s: State, e: Emitter)
    requires e.AtGate? || e.AtReadIngress? || e.AtReadLoop? || e.AtReadEvent?
    ensures Enabled(With(s, e), EmitStep(|s.emitters|))
    ensures Apply(With(s, e), EmitStep(|s.emitters|)) == With(s, ReadStep(s.ctl, e))
  {
    var i := |s.emitters|;
    assert (s.emitters + [e])[i] == e;
    assert (s.emitters + [e])[i := ReadStep(s.ctl, e)] == s.emitters + [ReadStep(s.ctl, e)];
    hide ReadStep;
  }

  lemma ReadsInTurn(s: State, r: LogRecord)
    requires Reachable(s) && s.ctl.accept
    ensures var i, c := EmitStep(|s.emitters|), s.ing.cycle;
      var read, last := AtReadLoop(r, Some(c)), AtReadEvent(r, Some(c), true);
      && Enabled(s, EmitCall(r)) && Apply(s, EmitCall(r)) == With(s, AtGate(r))
      && Enabled(With(s, AtGate(r)), i) && Apply(With(s, AtGate(r)), i) == With(s, AtReadIngress(r))
      && Enabled(With(s, AtReadIngress(r)), i) && Apply(With(s, AtReadIngress(r)), i) == With(s, read)
      && Enabled(With(s, read), i) && Apply(With(s, read), i) == With(s, last)
      && Enabled(With(s, last), i) && Apply(With(s, last), i) == With(s, AtPut(r, c, c))
  {
    ReachableInv(s);
    assert s.ctl.loopRef && s.ctl.ingressRef == s.ctl.eventRef == Some(s.ing.cycle);
    assert Enabled(s, EmitCall(r)) && Apply(s, EmitCall(r)) == With(s, AtGate(r));
    hide Enabled, Apply, Reachable, Inv, With;
    Reads(s, AtGate(r));
    Reads(s, AtReadIngress(r));
    Reads(s, AtReadLoop(r, Some(s.ing.cycle)));
    Reads(s, AtReadEvent(r, Some(s.ing.cycle), true));
  }

  /** With the gate open, a call of `emit` that nobody interferes with comes to its put into the present ingress. */
  lemma CallReachesPut(s: State, r: LogRecord)
    requires Reachable(s) && s.ctl.accept
    ensures var acts, c := CallAlone(|s.emitters|, r), s.ing.cycle;
      IsRun(s, acts) && Exec(s, acts) == With(s, AtPut(r, c, c))
  {
    hide IsRun, Exec, Enabled, Apply, Reachable, With;
    var i, c := |s.emitters|, s.ing.cycle;
    ReadsInTurn(s, r);
    NoSteps(s);
    Leads(s, [], s, EmitCall(r), With(s, AtGate(r)));
    Leads(s, [] + [EmitCall(r)], With(s, AtGate(r)), EmitStep(i), With(s, AtReadIngress(r)));
    var two := [] + [EmitCall(r)] + [EmitStep(i)];
    Leads(s, two, With(s, AtReadIngress(r)), EmitStep(i), With(s, AtReadLoop(r, Some(c))));
    Leads(s, two + [EmitStep(i)], With(s, AtReadLoop(r, Some(c))), EmitStep(i), With(s, AtReadEvent(r, Some(c), true)));
    Leads(s, two + [EmitStep(i)] + [EmitStep(i)], With(s, AtReadEvent(r, Some(c), true)), EmitStep(i), With(s, AtPut(r, c, c)));
    assert two + [EmitStep(i)] + [EmitStep(i)] + [EmitStep(i)] == CallAlone(i, r);
  }

  function PutAndScheduled(ing: Ingress, r: LogRecord): Ingress {
    ing.(items := ing.items + [r], entered := ing.entered + [r], pendingWakes := ing.pendingWakes + 1)
  }

  /** With room left, two more steps append its record, with one wakeup scheduled behind it, and return. */
  lemma PutAndWake(s: State, r: LogRecord)
    requires Reachable(s) && |s.ing.items| < s.ing.maxsize
    ensures var i, c := |s.emitters|, s.ing.cycle;
      var s1 := With(s, AtPut(r, c, c));
      && Enabled(s1, EmitStep(i)) && Enabled(Apply(s1, EmitStep(i)), EmitStep(i))
      && Apply(Apply(s1, EmitStep(i)), EmitStep(i)) ==
          With(s.(ing := PutAndScheduled(s.ing, r)), Returned(r, Entered))
  {
    var i, c := |s.emitters|, s.ing.cycle;
    assert (s.emitters + [AtPut(r, c, c)])[i := AtWake(r, c)] == s.emitters + [AtWake(r, c)];
    assert (s.emitters + [AtWake(r, c)])[i := Returned(r, Entered)] == s.emitters + [Returned(r, Entered)];
    hide Reachable;
  }

  /** So `emit` through an open gate, with room in the ingress, enters its record. */
  lemma CallEnters(s: State, r: LogRecord)
    requires Reachable(s) && s.ctl.accept && |s.ing.items| < s.ing.maxsize
    ensures var acts := CallAlone(|s.emitters|, r) + [EmitStep(|s.emitters|)] + [EmitStep(|s.emitters|)];
      && IsRun(s, acts)
      && Exec(s, acts) ==
          With(s.(ing := PutAndScheduled(s.ing, r)), Returned(r, Entered))
  {
    hide IsRun, Exec, Enabled, Apply, Reachable, With, CallAlone;
    var i, c := |s.emitters|, s.ing.cycle;
    CallReachesPut(s, r);
    PutAndWake(s, r);
    var s1 := With(s, AtPut(r, c, c));
    RunSnoc(s, CallAlone(i, r), EmitStep(i));
    RunSnoc(s, CallAlone(i, r) + [EmitStep(i)], EmitStep(i));
  }

  // ----- wakeups -----

  function EnteredCount(es: seq<Emitter>): nat {
    if es == [] then 0
    else EnteredCount(es[..|es| - 1]) + (if es[|es| - 1] == Returned(es[|es| - 1].record, Entered) then 1 else 0)
  }

  function BridgeWakes(acts: seq<Action>): nat {
    if acts == [] then 0 else BridgeWakes(acts[..|acts| - 1]) + (if acts[|acts| - 1].BridgeWake? then 1 else 0)
  }

  function Callbacks(acts: seq<Action>): nat {
    if acts == [] then 0 else Callbacks(acts[..|acts| - 1]) + (if acts[|acts| - 1].WakeCallback? then 1 else 0)
  }

  lemma {:induction false} CountUpdate(es: seq<Emitter>, i: nat, e: Emitter)
    requires i < |es| && !es[i].Returned?
    ensures EnteredCount(es[i := e]) == EnteredCount(es) + (if e == Returned(e.record, Entered) then 1 else 0)
  {
    var n := |es| - 1;
    if i == n {
      assert es[i := e][..n] == es[..n];
    } else {
      CountUpdate(es[..n], i, e);
      assert es[i := e][..n] == es[..n][i := e];
    }
  }

  lemma CountAdd(es: seq<Emitter>, e: Emitter)
    requires !e.Returned?
    ensures EnteredCount(es + [e]) == EnteredCount(es)
  {
    assert (es + [e])[..|es|] == es;
  }

  /** What a step of `emit` schedules it also enters. */
  lemma EmitSchedules(s: State, a: Action)
    requires (a.EmitCall? || a.EmitStep? || a.EmitStaleFull?) && Enabled(s, a)
    ensures var t := Apply(s, a);
      && t.ing.wake == s.ing.wake
      && t.ing.pendingWakes + EnteredCount(s.emitters) <= s.ing.pendingWakes + EnteredCount(t.emitters)
  {
    hide EnteredCount;
    if a.EmitCall? {
      CountAdd(s.emitters, AtGate(a.record));
    } else {
      CountUpdate(s.emitters, a.i, Apply(s, a).emitters[a.i]);
    }
  }

  lemma OthersSchedule(s: State, a: Action)
    requires !a.EmitCall? && !a.EmitStep? && !a.EmitStaleFull? && Enabled(s, a)
    ensures var t := Apply(s, a);
      && t.emitters == s.emitters
      && t.ing.pendingWakes + (if a.WakeCallback? then 1 else 0) <= s.ing.pendingWakes
      && (t.ing.wake ==> (s.ing.wake && !a.BridgeWake?) || a.WakeCallback?) && (a.BridgeWake? ==> s.ing.wake)
  {
    hide ControlStep, StatusRecord, DrainResult;
  }

  lemma {:induction false} WakesBalance(maxsize: int, acts: seq<Action>)
    requires IsRun(Initial(maxsize), acts)
    ensures var s := Exec(Initial(maxsize), acts);
      && BridgeWakes(acts) + (if s.ing.wake then 1 else 0) <= Callbacks(acts)
      && Callbacks(acts) + s.ing.pendingWakes <= EnteredCount(s.emitters)
  {
    hide IsRun, Exec, Enabled, Apply, EnteredCount;
    if acts == [] {
      NoSteps(Initial(maxsize));
    } else {
      var before, a := acts[..|acts| - 1], acts[|acts| - 1];
      RunLast(Initial(maxsize), acts);
      WakesBalance(maxsize, before);
      if a.EmitCall? || a.EmitStep? || a.EmitStaleFull? {
        EmitSchedules(Exec(Initial(maxsize), before), a);
      } else {
        OthersSchedule(Exec(Initial(maxsize), before), a);
      }
    }
  }

  /** Over every run the bridge wakes up at most once for each callback, and a record that entered has at most one. */
  lemma WakesAreSpent(maxsize: int, acts: seq<Action>)
    requires IsRun(Initial(maxsize), acts)
    ensures BridgeWakes(acts) <= Callbacks(acts) <= EnteredCount(Exec(Initial(maxsize), acts).emitters)
  {
    WakesBalance(maxsize, acts);
  }

  // ----- the bounds -----

  /** The bounds the backends were registered with, in order. */
  function RegisteredBounds(acts: seq<Action>): seq<int> {
    if acts == [] then []
    else RegisteredBounds(acts[..|acts| - 1]) +
         (if acts[|acts| - 1].Register? then [acts[|acts| - 1].maxsize] else [])
  }

  function Bounds(bs: seq<Backend>): (r: seq<int>)
    ensures |r| == |bs|
  {
    seq(|bs|, b requires 0 <= b < |bs| => bs[b].maxsize)
  }

  lemma HostKeepsBounds(s: State)
    requires HostReady(s)
    ensures HostStepped(s).ing.maxsize == s.ing.maxsize && Bounds(HostStepped(s).backends) == Bounds(s.backends)
  {
    hide ControlStep, StatusRecord, DrainResult;
  }

  lemma StepKeepsBounds(s: State, a: Action)
    requires Enabled(s, a)
    ensures Apply(s, a).ing.maxsize == s.ing.maxsize
    ensures Bounds(Apply(s, a).backends) == Bounds(s.backends) + (if a.Register? then [a.maxsize] else [])
  {
    hide HostStepped, HostReady, ReadStep;
    if a.HostStep? {
      HostKeepsBounds(s);
    }
  }

  /** Over every run the ingress has the bound the handler was made with, and each queue the bound it was registered with. */
  lemma {:induction false} ConfiguredBounds(maxsize: int, acts: seq<Action>)
    requires IsRun(Initial(maxsize), acts)
    ensures var t := Exec(Initial(maxsize), acts); t.ing.maxsize == maxsize && Bounds(t.backends) == RegisteredBounds(acts)
  {
    hide IsRun, Exec, Enabled, Apply;
    if acts == [] {
      NoSteps(Initial(maxsize));
    } else {
      var before := acts[..|acts| - 1];
      RunLast(Initial(maxsize), acts);
      ConfiguredBounds(maxsize, before);
      StepKeepsBounds(Exec(Initial(maxsize), before), acts[|acts| - 1]);
    }
  }

  lemma {:induction false} SameBounds(acts: seq<Action>, maxsize: int)
    requires forall k | 0 <= k < |acts| && acts[k].Register? :: acts[k].maxsize == maxsize
    ensures forall b | 0 <= b < |RegisteredBounds(acts)| :: RegisteredBounds(acts)[b] == maxsize
  {
    if acts != [] {
      SameBounds(acts[..|acts| - 1], maxsize);
    }
  }

  /**
   * Bounded memory.  When every backend's queue is made with the handler's `queue_maxsize`, ingress and N queues together
   * hold at most (1+N) times that many records, at every moment of every run.
   */
  lemma MemoryIsBounded(maxsize: int, acts: seq<Action>)
    requires 0 < maxsize && IsRun(Initial(maxsize), acts)
    requires forall k | 0 <= k < |acts| && acts[k].Register? :: acts[k].maxsize == maxsize
    ensures var t := Exec(Initial(maxsize), acts);
      |t.ing.items| + TotalQueued(t.backends) <= (1 + |t.backends|) * maxsize
  {
    var t := Exec(Initial(maxsize), acts);
    assert Reachable(t);
    hide IsRun, Exec, Reachable;
    ConfiguredBounds(maxsize, acts);
    SameBounds(acts, maxsize);
    forall b | 0 <= b < |t.backends| ensures t.backends[b].maxsize == maxsize {
      assert Bounds(t.backends)[b] == t.backends[b].maxsize;
    }
    BoundedMemory(t);
  }

  // ----- the drains -----

  /** When stop leaves its flush, every record that entered the ingress while the backend was there has been offered to it. */
  lemma FlushedAll(s: State, i: nat)
    requires ReachableBackend(s, i) && s.ctl.host.StopFlush? && Enabled(s, HostStep)
    ensures s.ing.entered == s.backends[i].missed + Offered(s.backends[i].offers) && !s.ctl.accept
  {
    hide Reachable, Offered;
    InFlush(s);
    OfferedByNow(s, i);
    assert s.ing.moved + [] == s.ing.moved;
  }

  lemma InFlush(s: State)
    requires Reachable(s) && s.ctl.host.StopFlush?
    ensures s.ing.entered == s.ing.moved + s.ing.items && !s.ctl.accept
  {
    hide Reachable, InvBackends, InvEmitters, InvWake, InvHand, UniqueNames;
    ReachableInv(s);
    assert s.ing.moved + [] + s.ing.items == s.ing.moved + s.ing.items;
  }

  lemma OfferedByNow(s: State, i: nat)
    requires ReachableBackend(s, i) && s.hand == Empty
    ensures s.ing.moved == s.backends[i].missed + Offered(s.backends[i].offers)
  {
    BackendInv(s, i);
    var b := s.backends[i];
    hide Reachable, Offered, WorkerOk, CountOk, DrainOk;
    assert b.missed + Offered(b.offers) + [] == b.missed + Offered(b.offers);
  }

  /** `queue.join()` comes back exactly when nothing is queued or in hand; until the hook returns, the timeout may strike. */
  lemma DrainEnds(s: State, i: nat)
    requires ReachableBackend(s, i) && s.ctl.host.StopDrain? && LoopFree(s)
    requires s.backends[i].drain.Joining? || s.backends[i].drain.Joined?
    ensures Enabled(s, DrainReturn(i, TIMEOUT))
    ensures s.backends[i].drain.Joining? ==> Enabled(s, DrainReturn(i, ERROR)) && !Enabled(s, DrainReturn(i, COMPLETED))
    ensures s.backends[i].drain.Joining? ==>
      (Enabled(s, DrainJoin(i)) <==> s.backends[i].queue == [] && s.backends[i].hand == None)
    ensures s.backends[i].drain.Joined? ==> Enabled(s, DrainReturn(i, COMPLETED))
  {
    BackendInv(s, i);
    hide Reachable;
  }

  // ----- the shutdown report -----

  /** A status record goes to the end of a queue unless that holds its bound. */
  predicate PutOrDropped(from: Backend, to: Backend, r: LogRecord) {
    if 0 < from.maxsize == |from.queue| then to == from
    else to.queue == from.queue + [r] && to.unfinished == from.unfinished + 1
  }

  lemma StatusPut(from: Backend, r: LogRecord)
    requires 0 < from.maxsize ==> |from.queue| <= from.maxsize
    ensures PutOrDropped(from, StatusTo(from, r), r)
  {
  }

  /** Its step of stop puts one status record into the reporter's queue and changes no other backend. */
  lemma StatementReports(s: State)
    requires s.ctl.host.StopReport? && HostReady(s)
    requires s.ctl.host.reporter < |s.ctl.reporters| && s.ctl.host.result < |s.backends|
    ensures var b, of := s.ctl.reporters[s.ctl.host.reporter], s.backends[s.ctl.host.result];
      HostStepped(s).backends == s.backends[b := StatusTo(s.backends[b], StatusRecord(DrainResult(of)))]
  {
    hide StatusRecord, DrainResult, StatusTo, ControlStep;
  }

  /**
   * What a reporter is told of a backend: a record at INFO exactly when that backend's drain completed, under that
   * backend's label, and put at the end of the reporter's queue unless that holds its bound.
   */
  lemma ReportedHonestly(s: State)
    requires Reachable(s) && s.ctl.host.StopReport?
    requires s.ctl.host.reporter < |s.ctl.reporters| && s.ctl.host.result < |s.backends|
    ensures Enabled(s, HostStep) && s.ctl.reporters[s.ctl.host.reporter] < |s.backends|
    ensures var b, of := s.ctl.reporters[s.ctl.host.reporter], s.backends[s.ctl.host.result];
      var t := Apply(s, HostStep);
      && of.drain.Drained? && |t.backends| == |s.backends| && t.backends == s.backends[b := t.backends[b]]
      && var r := StatusRecord(BackendDrainResult(of.name, of.drain.status, "", of.displayName));
      && PutOrDropped(s.backends[b], t.backends[b], r) && (r.levelno == INFO <==> of.drain == Drained(COMPLETED))
  {
    hide Reachable, BackendOk, StatusRecord, PutOrDropped, StatusTo;
    ReportersRegistered(s);
    var b, k := s.ctl.reporters[s.ctl.host.reporter], s.ctl.host.result;
    AtReport(s, k);
    AtReport(s, b);
    StatusLevel(DrainResult(s.backends[k]));
    StatusPut(s.backends[b], StatusRecord(DrainResult(s.backends[k])));
    StatementReports(s);
    hide HostStepped;
  }

  lemma AtReport(s: State, i: nat)
    requires ReachableBackend(s, i) && s.ctl.host.StopReport?
    ensures var b := s.backends[i]; b.drain.Drained? && (0 < b.maxsize ==> |b.queue| <= b.maxsize)
  {
    hide Reachable, WorkerOk, FlowOk;
    BackendInv(s, i);
  }

  lemma ReportersRegistered(s: State)
    requires Reachable(s)
    ensures forall r | 0 <= r < |s.ctl.reporters| :: s.ctl.reporters[r] < |s.backends|
  {
    ReachableInv(s);
  }

  // ----- workers -----

  /** A worker is cancelled at most twice: once by the timeout of the first gather, once more before the second. */
  lemma CancelledOncePerGather(s: State, b: nat)
    requires Enabled(s, WorkerCancel(b))
    ensures !Enabled(Apply(s, WorkerCancel(b)), WorkerCancel(b)) || s.ctl.host.StopRegather?
    ensures s.backends[b].worker.Cancelling? ==> s.ctl.host.StopRegather? && !Enabled(Apply(s, WorkerCancel(b)), WorkerCancel(b))
  {
  }

  /** A worker that came to its end by itself has acknowledged every record that was ever put into its queue, in order. */
  lemma FinishedIsEmpty(s: State, i: nat)
    requires ReachableBackend(s, i) && s.backends[i].worker.Finished?
    ensures var b := s.backends[i];
      b.queue == [] && b.hand == None && b.unfinished == 0 && Acked(b.acks) == Accepted(b.offers) + b.statuses
  {
    BackendInv(s, i);
    var b := s.backends[i];
    assert b.discarded == [];
    hide Accepted, Acked, Reachable;
    assert Acked(b.acks) + [] + [] + [] == Acked(b.acks);
  }
}
