/**
 * The handler as an object whose fields its methods update in place.
 *
 * `trace` records the steps the object has taken; `Valid` says that they are a run of the pipeline
 * machine ending in the object's present state, so every theorem about runs applies to the object.
 * Where the real code can be interrupted, a method consults a schedule: the burst of steps that
 * emitter threads, event-loop callbacks and workers take there.
 */
module AsyncLogging {
  import opened Records
  import opened QueueBackend
  import opened Pipeline
  import opened PipelineInvariant
  import opened PipelineSteps
  import opened PipelineFlush
  import opened PipelineTheorems
  import opened PipelineGather
  import opened PipelineOutcomes

  /** A step taken by somebody else while a host method is between two statements. */
  predicate Environment(a: Action) {
    a.EmitCall? || a.EmitStep? || a.EmitStaleFull? || a.WakeCallback? || a.BridgeDie? || a.CloseCall? ||
    a.WorkerGet? || a.WorkerAck? || a.WorkerExit? || a.WorkerDie? || a.DrainJoin? || a.DrainReturn?
  }

  /** `validate_queue_maxsize`. */
  function ValidateQueueMaxsize(value: int): (r: Result<int>)
    ensures r.Ok? <==> 0 < value
    ensures r.Ok? ==> r.value == value
  {
    if value <= 0 then Err("queue_maxsize must be a positive int") else Ok(value)
  }

  /** The same backends are registered, in the same order. */
  ghost predicate SameRegistration(a: seq<Backend>, b: seq<Backend>) {
    |a| == |b| && forall i | 0 <= i < |a| ::
      a[i].name == b[i].name && a[i].displayName == b[i].displayName && a[i].maxsize == b[i].maxsize
  }

  /** No worker that has ended or been cancelled is alive again. */
  ghost predicate NoneRevived(before: seq<Backend>, after: seq<Backend>) {
    forall i | 0 <= i < |before| && i < |after| ::
      && (!before[i].worker.Alive? ==> !after[i].worker.Alive?)
      && (Spent(before[i].worker) ==> Spent(after[i].worker))
  }

  /** What host code finds unchanged after somebody else ran between two of its statements. */
  ghost predicate Undisturbed(s: State, t: State) {
    && t.ctl == s.ctl.(closed := t.ctl.closed, accept := t.ctl.accept, bridge := t.ctl.bridge)
    && (s.ctl.closed ==> t.ctl.closed) && (t.ctl.accept ==> s.ctl.accept)
    && (t.ctl.bridge != s.ctl.bridge ==> s.ctl.host.StopAwaitBridge? && t.ctl.bridge.Dead?)
    && (InStart(s.ctl.host) ==> t.ctl.closed == s.ctl.closed && t.ctl.accept == s.ctl.accept)
    && LoopFree(t) == LoopFree(s)
    && t.hand == s.hand
    && t.ing.cycle == s.ing.cycle && t.ing.moved == s.ing.moved && t.ing.dropped == s.ing.dropped
    && s.ing.items <= t.ing.items
    && SameRegistration(s.backends, t.backends) && NoneRevived(s.backends, t.backends)
    && (!LoopFree(s) ==> t.backends == s.backends)
    && (!LoopFree(s) && !s.ctl.accept ==> FlushMeasure(t) <= FlushMeasure(s))
  }

  lemma UndisturbedTrans(s: State, t: State, u: State)
    requires Undisturbed(s, t) && Undisturbed(t, u)
    ensures Undisturbed(s, u)
  {
  }

  lemma EmitUndisturbed(s: State, a: Action)
    requires a.EmitCall? || a.EmitStep? || a.EmitStaleFull?
    requires Enabled(s, a)
    ensures Undisturbed(s, Apply(s, a))
  {
    if !s.ctl.accept {
      EmitActionWorks(s, a);
    }
  }

  lemma EnvironmentUndisturbed(s: State, a: Action)
    requires Environment(a) && Enabled(s, a) && BridgeOk(s.ctl)
    ensures Undisturbed(s, Apply(s, a))
  {
    if a.EmitCall? || a.EmitStep? || a.EmitStaleFull? {
      EmitUndisturbed(s, a);
    }
  }

  /** `FanOut(bs, rs)`: every backend has been offered the records `rs`, in that order. */
  function FanOut(bs: seq<Backend>, rs: seq<LogRecord>): (r: seq<Backend>)
    ensures |r| == |bs|
  {
    if rs == [] then bs
    else
      var last := rs[|rs| - 1];
      MapBackends(FanOut(bs, rs[..|rs| - 1]), (b: Backend) => OfferTo(b, last))
  }

  lemma FanOutSnoc(bs: seq<Backend>, rs: seq<LogRecord>, r: LogRecord)
    ensures FanOut(FanOut(bs, rs), [r]) == FanOut(bs, rs + [r])
  {
    assert [r][..0] == [] && (rs + [r])[..|rs|] == rs;
  }

  /** From `s` to `t` the records after `s.ing.moved` have been taken in order and fanned out. */
  ghost predicate FannedOut(s: State, t: State) {
    && s.ing.moved <= t.ing.moved
    && s.ing.moved + s.ing.items <= t.ing.moved + t.ing.items
    && t.backends == FanOut(s.backends, t.ing.moved[|s.ing.moved|..])
  }

  lemma FannedOutMore(s: State, t: State, u: State)
    requires FannedOut(s, t) && t.ing.items != []
    requires u.ing.moved == t.ing.moved + [t.ing.items[0]]
    requires t.ing.items[1..] <= u.ing.items
    requires u.backends == FanOut(t.backends, [t.ing.items[0]])
    ensures FannedOut(s, u)
  {
    hide FanOut;
    FanOutSnoc(s.backends, t.ing.moved[|s.ing.moved|..], t.ing.items[0]);
    assert u.ing.moved[|s.ing.moved|..] == t.ing.moved[|s.ing.moved|..] + [t.ing.items[0]];
    assert t.ing.moved + t.ing.items == u.ing.moved + t.ing.items[1..];
  }

  /** Apart from the histories, a backend that was just registered. */
  predicate LooksFresh(b: Backend) {
    ForgetCycle(b) == FreshBackend(b.name, b.displayName, b.maxsize, [])
  }

  /** Of the first `n` workers those that have not ended have been cancelled; the others are as they were. */
  ghost predicate CancelledUpTo(h: Host, before: seq<Backend>, after: seq<Backend>, n: nat) {
    && |after| == |before|
    && (forall b | 0 <= b < n && b < |before| :: after[b].worker == CancelledTask(h, before[b].worker))
    && (forall b | n <= b < |before| :: after[b] == before[b])
  }

  function CancelledTask(h: Host, w: WorkerTask): WorkerTask {
    if CanCancel(h, w) then Cancelled(w) else w
  }

  /** Every worker has ended or been cancelled twice. */
  ghost predicate NoneSpared(bs: seq<Backend>) {
    forall b | 0 <= b < |bs| :: Spent(bs[b].worker)
  }

  predicate Spent(w: WorkerTask) {
    TaskEnded(w) || w.Recancelled?
  }

  /** The gather that stop awaits is settled. */
  predicate Settled(s: State) {
    HostReady(s) || (s.ctl.host.StopGather? && SomeoneDied(s))
  }

  /** Some worker has been cancelled twice and does not come to its end. */
  ghost predicate Unending(s: State) {
    s.ctl.host.StopRegather? && NoneSpared(s.backends) && SomeoneTearsDown(s)
  }

  /** What stop's final clearing leaves of a backend: an empty queue whose items are discarded. */
  function Cleared(b: Backend): Backend {
    b.(queue := [], discarded := b.discarded + b.queue, unfinished := b.unfinished - |b.queue|)
  }

  /** What a hook returns when its time is up: TIMEOUT unless everything is acknowledged or the hook had returned. */
  function DrainedBy(b: Backend): Drain {
    if b.drain.Drained? then b.drain
    else if b.drain.Joined? || b.unfinished == 0 then Drained(COMPLETED)
    else Drained(TIMEOUT)
  }

  /** The state after those steps of `burst` that somebody else could take, in that order. */
  function Performed(s: State, burst: seq<Action>): State {
    if burst == [] then s
    else
      var t, a := Performed(s, burst[..|burst| - 1]), burst[|burst| - 1];
      if Environment(a) && Enabled(t, a) then Apply(t, a) else t
  }

  /** A hook that reports completion has its queue fully acknowledged. */
  ghost predicate HonestDrain(b: Backend) {
    b.drain.Drained? && (b.drain.status.COMPLETED? ==> b.unfinished == 0 && b.queue == [] && b.hand == None)
  }

  function AfterRelease(h: Host): Host {
    if h.ReleaseLoop? then ReleaseIngress
    else if h.ReleaseIngress? then ReleaseEvent
    else if h.ReleaseEvent? then ReleaseBridge
    else Idle
  }

  /** Stop's clearing of the ingress uses up the measure as well. */
  lemma DropWorks(s: State)
    requires s.ing.items != []
    ensures FlushMeasure(s.(ing := DropItem(s.ing))) < FlushMeasure(s)
  {
    var n := |s.backends|;
    assert (n + 1) * |s.ing.items| == (n + 1) * (|s.ing.items| - 1) + (n + 1);
  }

  // ----- the shutdown-status records -----

  /** `report_status`: one put per result, in order, skipping what does not fit. */
  function ReportStatus(b: Backend, results: seq<BackendDrainResult>): Backend {
    if results == [] then b
    else StatusTo(ReportStatus(b, results[..|results| - 1]), StatusRecord(results[|results| - 1]))
  }

  /** Every registered reporter in turn. */
  function ReportAll(bs: seq<Backend>, reporters: seq<nat>, results: seq<BackendDrainResult>): (r: seq<Backend>)
    requires forall k | 0 <= k < |reporters| :: reporters[k] < |bs|
    ensures |r| == |bs|
  {
    if reporters == [] then bs
    else
      var front := ReportAll(bs, reporters[..|reporters| - 1], results);
      var b := reporters[|reporters| - 1];
      front[b := ReportStatus(front[b], results)]
  }

  /** `results` is what the drain hooks returned, in registration order. */
  ghost predicate ResultsOf(bs: seq<Backend>, results: seq<BackendDrainResult>) {
    |results| == |bs| && forall b | 0 <= b < |bs| :: results[b] == DrainResult(bs[b])
  }

  lemma ReportAllStep(start: seq<Backend>, reporters: seq<nat>, results: seq<BackendDrainResult>, r: nat)
    requires forall k | 0 <= k < |reporters| :: reporters[k] < |start|
    requires r < |reporters|
    ensures var before := ReportAll(start, reporters[..r], results);
      before[reporters[r] := ReportStatus(before[reporters[r]], results)] == ReportAll(start, reporters[..r + 1], results)
  {
    assert reporters[..r + 1][..r] == reporters[..r];
  }

  lemma {:induction false} ReportKeepsRegistration(b: Backend, results: seq<BackendDrainResult>)
    ensures var r := ReportStatus(b, results);
      r.name == b.name && r.displayName == b.displayName && r.maxsize == b.maxsize
  {
    if results != [] {
      ReportKeepsRegistration(b, results[..|results| - 1]);
    }
  }

  lemma {:induction false} ReportAllKeepsRegistration(bs: seq<Backend>, reporters: seq<nat>, results: seq<BackendDrainResult>)
    requires forall k | 0 <= k < |reporters| :: reporters[k] < |bs|
    ensures SameRegistration(bs, ReportAll(bs, reporters, results))
  {
    if reporters != [] {
      var front := reporters[..|reporters| - 1];
      ReportAllKeepsRegistration(bs, front, results);
      var b := reporters[|reporters| - 1];
      ReportKeepsRegistration(ReportAll(bs, front, results)[b], results);
    }
  }

  lemma {:induction false} FanOutKeepsRegistration(bs: seq<Backend>, rs: seq<LogRecord>)
    ensures SameRegistration(bs, FanOut(bs, rs))
  {
    if rs != [] {
      FanOutKeepsRegistration(bs, rs[..|rs| - 1]);
    }
  }

  lemma ReportStep(start: seq<Backend>, b: nat, results: seq<BackendDrainResult>, k: nat)
    requires b < |start| && k < |results| && ResultsOf(start[b := ReportStatus(start[b], results[..k])], results)
    ensures var before := start[b := ReportStatus(start[b], results[..k])];
      var after := start[b := ReportStatus(start[b], results[..k + 1])];
      before[b := StatusTo(before[b], StatusRecord(results[k]))] == after && ResultsOf(after, results)
  {
    assert results[..k + 1][..k] == results[..k];
  }

  /** The room left in a queue, at most `wanted`. */
  function Room(b: Backend, wanted: nat): nat {
    if b.maxsize <= 0 || |b.queue| + wanted <= b.maxsize then wanted
    else if b.maxsize <= |b.queue| then 0
    else b.maxsize - |b.queue|
  }

  function StatusRecords(results: seq<BackendDrainResult>): (r: seq<LogRecord>)
    ensures |r| == |results|
  {
    seq(|results|, k requires 0 <= k < |results| => StatusRecord(results[k]))
  }

  /** A backend receives the status records of the first results, as many as it has room for. */
  lemma {:induction false} ReportFillsQueue(b: Backend, results: seq<BackendDrainResult>)
    ensures var added := StatusRecords(results)[..Room(b, |results|)];
      ReportStatus(b, results) ==
        b.(queue := b.queue + added, statuses := b.statuses + added, unfinished := b.unfinished + |added|)
  {
    if results == [] {
      assert b.queue + [] == b.queue && b.statuses + [] == b.statuses;
    } else {
      var front, n := results[..|results| - 1], |results|;
      ReportFillsQueue(b, front);
      var k := Room(b, n - 1);
      assert StatusRecords(results)[..k] == StatusRecords(front)[..k];
      if Room(b, n) == n {
        assert StatusRecords(results)[..n] == StatusRecords(front)[..k] + [StatusRecord(results[n - 1])];
      }
    }
  }

  /** `to` has got as many of the status records of `results` as there was room for. */
  ghost predicate Told(from: Backend, to: Backend, results: seq<BackendDrainResult>) {
    var added := StatusRecords(results)[..Room(from, |results|)];
    to == from.(queue := from.queue + added, statuses := from.statuses + added, unfinished := from.unfinished + |added|)
  }

  /** A backend that registered as a reporter once is told all results; one that did not is left alone. */
  ghost predicate EveryReporterTells(before: seq<Backend>, after: seq<Backend>, reporters: seq<nat>,
                                     results: seq<BackendDrainResult>, b: nat) {
    && b < |before| == |after|
    && (b !in reporters ==> after[b] == before[b])
    && (multiset(reporters)[b] == 1 ==> Told(before[b], after[b], results))
  }

  lemma {:induction false} EveryReporterTold(bs: seq<Backend>, reporters: seq<nat>, results: seq<BackendDrainResult>, b: nat)
    requires (forall k | 0 <= k < |reporters| :: reporters[k] < |bs|) && b < |bs|
    ensures EveryReporterTells(bs, ReportAll(bs, reporters, results), reporters, results, b)
  {
    if reporters != [] {
      var front, last := reporters[..|reporters| - 1], reporters[|reporters| - 1];
      assert reporters == front + [last];
      EveryReporterTold(bs, front, results, b);
      ReportFillsQueue(bs[b], results);
    }
  }

  /** The record in hand has been offered to the backends before `hand.next` and to no other. */
  ghost predicate PartlyOffered(before: seq<Backend>, now: seq<Backend>, hand: Hand, record: LogRecord) {
    && |now| == |before|
    && (hand.Holding? ==> hand.record == record && hand.next < |now|)
    && forall b | 0 <= b < |now| ::
         now[b] == (if hand.Holding? && hand.next <= b then before[b] else OfferTo(before[b], record))
  }

  lemma AllOffered(before: seq<Backend>, now: seq<Backend>, record: LogRecord)
    requires PartlyOffered(before, now, Empty, record)
    ensures now == FanOut(before, [record])
  {
    assert FanOut(before, [record][..0]) == before;
  }

  /** How a call of `emit` ends. */
  function EmitResult(s: State): EmitFate {
    if !s.ctl.accept then NotAccepting else if IngressFull(s.ing) then Overflow else Entered
  }

  /** The ingress behind it. */
  function AfterEmit(s: State, record: LogRecord): Ingress {
    if EmitResult(s).Entered? then PutItem(s.ing, record).(pendingWakes := s.ing.pendingWakes + 1) else s.ing
  }

  /** Statements of `emit` still ahead. */
  function Ahead(e: Emitter): nat {
    match e
    case AtGate(_) => 6
    case AtReadIngress(_) => 5
    case AtReadLoop(_, _) => 4
    case AtReadEvent(_, _, _) => 3
    case AtPut(_, _, _) => 2
    case AtWake(_, _) => 1
    case Returned(_, _) => 0
  }

  class AsyncLoggingHandler {
    var host: Host
    var closed: bool
    var accept: bool
    var running: bool
    var loopRef: bool
    var ingressRef: Option<nat>
    var eventRef: Option<nat>
    var bridge: Bridge
    var reporters: seq<nat>
    var ingress: Ingress
    var hand: Hand
    var emitters: seq<Emitter>
    var backends: seq<Backend>
    ghost const maxsize: int
    ghost var trace: seq<Action>

    function Snapshot(): State
      reads this
    {
      State(Control(host, closed, accept, running, loopRef, ingressRef, eventRef, bridge, reporters),
            ingress, hand, emitters, backends)
    }

    ghost predicate Valid()
      reads this
    {
      0 < maxsize && IsRun(Initial(maxsize), trace) && Snapshot() == Exec(Initial(maxsize), trace)
    }

    lemma ValidInv()
      requires Valid()
      ensures Inv(Snapshot())
    {
      InitialOk(maxsize);
      RunKeepsInv(Initial(maxsize), trace);
    }

    /** The object has just taken step `a`. */
    ghost method Took(a: Action, before: State)
      requires 0 < maxsize && IsRun(Initial(maxsize), trace) && before == Exec(Initial(maxsize), trace)
      requires Enabled(before, a) && Snapshot() == Apply(before, a)
      modifies this`trace
      ensures Valid() && trace == old(trace) + [a]
      ensures Snapshot() == old(Snapshot())
    {
      RunSnoc(Initial(maxsize), trace, a);
      trace := trace + [a];
    }

    /** The object has just taken a statement of `start_logging` or `stop_logging`. */
    ghost method TookHost(before: State)
      requires 0 < maxsize && IsRun(Initial(maxsize), trace) && before == Exec(Initial(maxsize), trace)
      requires HostReady(before) && Snapshot() == HostStepped(before)
      modifies this`trace
      ensures Valid() && trace == old(trace) + [HostStep]
      ensures Snapshot() == old(Snapshot())
    {
      Took(HostStep, before);
    }

    constructor (queueMaxsize: int)
      requires ValidateQueueMaxsize(queueMaxsize).Ok?
      ensures Valid() && Snapshot() == Initial(queueMaxsize) && maxsize == queueMaxsize
    {
      host, closed, accept, running := Idle, false, false, false;
      loopRef, ingressRef, eventRef, bridge, reporters := false, None, None, NoBridge, [];
      ingress := Ingress(0, queueMaxsize, [], false, 0, [], [], []);
      hand, emitters, backends := Empty, [], [];
      maxsize, trace := queueMaxsize, [];
    }

    // ----- emit, one statement at a time -----

    method CallEmit(record: LogRecord)
      requires Valid()
      modifies this
      ensures Valid() && trace == old(trace) + [EmitCall(record)]
      ensures Snapshot() == Apply(old(Snapshot()), EmitCall(record))
    {
      ghost var before := Snapshot();
      emitters := emitters + [AtGate(record)];
      Took(EmitCall(record), before);
    }

    /** The statements of `emit` up to the put: they read the handler and keep what they read. */
    method EmitRead(i: nat)
      requires Valid() && Enabled(Snapshot(), EmitStep(i)) && !emitters[i].AtPut? && !emitters[i].AtWake?
      modifies this
      ensures Valid() && trace == old(trace) + [EmitStep(i)]
      ensures Snapshot() == Apply(old(Snapshot()), EmitStep(i))
    {
      ghost var before := Snapshot();
      var e := emitters[i];
      if e.AtGate? {
        e := if accept then AtReadIngress(e.record) else Returned(e.record, NotAccepting);
      } else if e.AtReadIngress? {
        e := AtReadLoop(e.record, ingressRef);
      } else if e.AtReadLoop? {
        e := AtReadEvent(e.record, e.ingress, loopRef);
      } else if e.ingress == None || !e.loopSeen || eventRef == None {
        e := Returned(e.record, TornDown);
      } else {
        e := AtPut(e.record, e.ingress.value, eventRef.value);
      }
      emitters := emitters[i := e];
      Took(EmitStep(i), before);
    }

    /** `put_nowait` and, on the next step, `call_soon_threadsafe`. */
    method EmitWrite(i: nat)
      requires Valid() && i < |emitters| && (emitters[i].AtPut? || emitters[i].AtWake?)
      modifies this
      ensures Valid() && trace == old(trace) + [EmitStep(i)]
      ensures Snapshot() == Apply(old(Snapshot()), EmitStep(i))
    {
      ghost var before := Snapshot();
      var e := emitters[i];
      if e.AtWake? {
        if e.event == ingress.cycle {
          ingress := ingress.(pendingWakes := ingress.pendingWakes + 1);
        }
        emitters := emitters[i := Returned(e.record, Entered)];
      } else if e.into == ingress.cycle && 0 < ingress.maxsize <= |ingress.items| {
        emitters := emitters[i := Returned(e.record, Overflow)];
      } else {
        if e.into == ingress.cycle {
          ingress := PutItem(ingress, e.record);
        }
        emitters := emitters[i := AtWake(e.record, e.event)];
      }
      Took(EmitStep(i), before);
    }

    method EmitIntoFullStaleIngress(i: nat)
      requires Valid() && Enabled(Snapshot(), EmitStaleFull(i))
      modifies this
      ensures Valid() && trace == old(trace) + [EmitStaleFull(i)]
      ensures Snapshot() == Apply(old(Snapshot()), EmitStaleFull(i))
    {
      ghost var before := Snapshot();
      emitters := emitters[i := Returned(emitters[i].record, Overflow)];
      Took(EmitStaleFull(i), before);
    }

    /** What holds of a call of `emit` that has come as far as `e` with nobody interfering. */
    ghost predicate EmitSoFar(e: Emitter, record: LogRecord, before: State)
      reads this
    {
      && emitters == before.emitters + [e] && e.record == record
      && Snapshot().ctl == before.ctl && hand == before.hand && backends == before.backends
      && (!e.AtGate? && !e.Returned? ==> before.ctl.accept)
      && (e.AtReadLoop? || e.AtReadEvent? ==> e.ingress == before.ctl.ingressRef)
      && (e.AtReadEvent? ==> e.loopSeen == before.ctl.loopRef)
      && (e.AtPut? ==> e.into == e.event == before.ing.cycle)
      && (e.AtWake? ==> e.event == before.ing.cycle && !IngressFull(before.ing) && ingress == PutItem(before.ing, record))
      && (!e.AtWake? && !e.Returned? ==> ingress == before.ing)
      && (e.Returned? ==> e.fate == EmitResult(before) && ingress == AfterEmit(before, record))
    }

    lemma ReferencesInPlace()
      requires Valid() && accept
      ensures loopRef && ingressRef == Some(ingress.cycle) && eventRef == Some(ingress.cycle)
    {
      hide IsRun, Exec;
      ValidInv();
    }

    /** The ingress has the bound the handler was made with, and never more in it. */
    lemma AtItsBound()
      requires Valid()
      ensures ingress.maxsize == maxsize && 0 < maxsize && |ingress.items| <= maxsize
    {
      hide IsRun, Exec;
      ValidInv();
      ConfiguredBounds(maxsize, trace);
    }

    method EmitStatement(record: LogRecord, ghost before: State)
      requires Valid() && emitters != [] && !emitters[|emitters| - 1].Returned?
      requires EmitSoFar(emitters[|emitters| - 1], record, before)
      modifies this
      ensures Valid() && emitters != [] && EmitSoFar(emitters[|emitters| - 1], record, before)
      ensures Ahead(emitters[|emitters| - 1]) < Ahead(old(emitters[|emitters| - 1]))
    {
      hide IsRun, Exec;
      var i := |emitters| - 1;
      assert emitters[..i] == before.emitters;
      if accept {
        ReferencesInPlace();
      }
      if emitters[i].AtPut? || emitters[i].AtWake? {
        EmitWrite(i);
      } else {
        EmitRead(i);
      }
      assert emitters == emitters[..i] + [emitters[i]];
    }

    /**
     * `emit` from its call to its return, with nobody interfering: silently dropped behind a closed gate, dropped by a
     * full ingress, and otherwise appended to the ingress with one wakeup scheduled behind the put.
     */
    method Emit(record: LogRecord) returns (fate: EmitFate)
      requires Valid()
      modifies this
      ensures Valid() && fate == EmitResult(old(Snapshot()))
      ensures Snapshot() == old(Snapshot()).(emitters := old(emitters) + [Returned(record, fate)],
                                             ing := AfterEmit(old(Snapshot()), record))
      ensures fate.NotAccepting? <==> !old(accept)
      ensures old(accept) ==> (fate.Overflow? <==> |old(ingress.items)| == maxsize)
      ensures fate.Entered? <==> old(accept) && |old(ingress.items)| < maxsize
      ensures ingress.items == old(ingress.items) + (if fate.Entered? then [record] else [])
      ensures ingress.pendingWakes == old(ingress.pendingWakes) + (if fate.Entered? then 1 else 0)
    {
      hide IsRun, Exec;
      AtItsBound();
      ghost var before := Snapshot();
      CallEmit(record);
      while !emitters[|emitters| - 1].Returned?
        invariant Valid() && emitters != [] && EmitSoFar(emitters[|emitters| - 1], record, before)
        decreases Ahead(emitters[|emitters| - 1])
      {
        EmitStatement(record, before);
      }
      fate := emitters[|emitters| - 1].fate;
    }

    // ----- tasks on the event loop -----

    /** A step of a worker or of a drain hook. */
    method TaskStep(a: Action)
      requires a.WorkerGet? || a.WorkerAck? || a.WorkerExit? || a.WorkerCancel? || a.WorkerDie?
            || a.DrainJoin? || a.DrainReturn?
      requires Valid() && Enabled(Snapshot(), a)
      modifies this
      ensures Valid() && trace == old(trace) + [a]
      ensures Snapshot() == Apply(old(Snapshot()), a)
    {
      ghost var before := Snapshot();
      var b := backends[a.b];
      match a {
        case WorkerGet(_) => b := GetTo(b);
        case WorkerAck(_, outcome) => b := AckBy(b, outcome);
        case WorkerCancel(_) => b := b.(worker := Cancelled(b.worker));
        case DrainJoin(_) => b := b.(drain := Joined);
        case DrainReturn(_, status) => b := b.(drain := Drained(status));
        case WorkerDie(_) => b := b.(worker := Died);
        case _ => b := b.(worker := Finished);
      }
      backends := backends[a.b := b];
      Took(a, before);
    }

    method RunWakeCallback()
      requires Valid() && Enabled(Snapshot(), WakeCallback)
      modifies this
      ensures Valid() && trace == old(trace) + [WakeCallback]
      ensures Snapshot() == Apply(old(Snapshot()), WakeCallback)
      ensures ingress.wake && ingress.pendingWakes == old(ingress.pendingWakes) - 1
    {
      ghost var before := Snapshot();
      ingress := ingress.(wake := true, pendingWakes := ingress.pendingWakes - 1);
      Took(WakeCallback, before);
    }

    method BridgeCancelled()
      requires Valid() && Enabled(Snapshot(), BridgeDie)
      modifies this
      ensures Valid() && trace == old(trace) + [BridgeDie]
      ensures Snapshot() == Apply(old(Snapshot()), BridgeDie)
    {
      ghost var before := Snapshot();
      bridge := Dead;
      Took(BridgeDie, before);
    }

    method Close()
      requires Valid() && !InStart(host)
      modifies this
      ensures Valid() && trace == old(trace) + [CloseCall]
      ensures Snapshot() == Apply(old(Snapshot()), CloseCall) && closed && !accept
    {
      ghost var before := Snapshot();
      closed := true;
      accept := false;
      Took(CloseCall, before);
    }

    /** One step of somebody else. */
    method Perform(a: Action)
      requires Environment(a) && Valid() && Enabled(Snapshot(), a)
      modifies this
      ensures Valid() && trace == old(trace) + [a]
      ensures Snapshot() == Apply(old(Snapshot()), a)
    {
      if a.EmitCall? {
        CallEmit(a.record);
      } else if a.EmitStep? {
        if emitters[a.i].AtPut? || emitters[a.i].AtWake? {
          EmitWrite(a.i);
        } else {
          EmitRead(a.i);
        }
      } else if a.EmitStaleFull? {
        EmitIntoFullStaleIngress(a.i);
      } else if a.WakeCallback? {
        RunWakeCallback();
      } else if a.BridgeDie? {
        BridgeCancelled();
      } else if a.CloseCall? {
        Close();
      } else {
        TaskStep(a);
      }
    }

    /** A burst of steps of others; those that cannot be taken at their turn are skipped. */
    method Interfere(burst: seq<Action>)
      requires Valid()
      modifies this
      ensures Valid() && Undisturbed(old(Snapshot()), Snapshot())
      ensures Snapshot() == Performed(old(Snapshot()), burst)
    {
      for k := 0 to |burst|
        invariant Valid() && Undisturbed(old(Snapshot()), Snapshot())
        invariant Snapshot() == Performed(old(Snapshot()), burst[..k])
      {
        assert burst[..k + 1][..k] == burst[..k];
        if Environment(burst[k]) && Enabled(Snapshot(), burst[k]) {
          ValidInv();
          EnvironmentUndisturbed(Snapshot(), burst[k]);
          UndisturbedTrans(old(Snapshot()), Snapshot(), Apply(Snapshot(), burst[k]));
          Perform(burst[k]);
        }
      }
      assert burst[..|burst|] == burst;
    }

    // ----- the bridge -----

    /** `get_nowait` on the ingress, by the bridge or by stop's flush. */
    method TakeRecord()
      requires Valid() && Enabled(Snapshot(), MoveGet)
      modifies this
      ensures Valid() && trace == old(trace) + [MoveGet]
      ensures Snapshot() == Apply(old(Snapshot()), MoveGet)
    {
      ghost var before := Snapshot();
      hand := if backends == [] then Empty else Holding(ingress.items[0], 0);
      ingress := TakeItem(ingress);
      Took(MoveGet, before);
    }

    /** `put_nowait` of the record in hand into the next backend queue. */
    method PutNext()
      requires Valid() && hand.Holding? && hand.next < |backends|
      modifies this
      ensures Valid() && trace == old(trace) + [MovePut(old(hand.next))]
      ensures Snapshot() == Apply(old(Snapshot()), MovePut(old(hand.next)))
    {
      ghost var before := Snapshot();
      var b := hand.next;
      backends := backends[b := OfferTo(backends[b], hand.record)];
      hand := if b + 1 == |backends| then Empty else Holding(hand.record, b + 1);
      Took(MovePut(b), before);
    }

    /** Emitters run, then the record in hand goes into the next backend queue. */
    method InterruptedPut(burst: seq<Action>)
      requires Valid() && hand.Holding? && hand.next < |backends| && !LoopFree(Snapshot())
      modifies this
      ensures Valid()
      ensures host == old(host) && bridge == old(bridge) && reporters == old(reporters) && (!old(accept) ==> !accept)
      ensures hand == if old(hand.next) + 1 == |old(backends)| then Empty else Holding(old(hand.record), old(hand.next) + 1)
      ensures backends == old(backends)[old(hand.next) := OfferTo(old(backends)[old(hand.next)], old(hand.record))]
      ensures ingress.moved == old(ingress.moved) && old(ingress.items) <= ingress.items
      ensures burst == [] ==> ingress.items == old(ingress.items)
      ensures !old(accept) ==> FlushMeasure(Snapshot()) < FlushMeasure(old(Snapshot()))
    {
      hide IsRun, Exec, FlushMeasure;
      ValidInv();
      Interfere(burst);
      MoveWorks(Snapshot(), MovePut(hand.next));
      PutNext();
    }

    /**
     * One turn of the loop shared by the bridge and stop's flush: take the oldest record and put it
     * into every backend queue, while emitters run between the puts.
     */
    method MoveOne(schedule: nat -> seq<Action>, tick: nat) returns (now: nat)
      requires Valid() && Enabled(Snapshot(), MoveGet)
      modifies this
      ensures Valid() && tick <= now
      ensures hand == Empty && host == old(host) && bridge == old(bridge) && reporters == old(reporters)
      ensures ingress.moved == old(ingress.moved) + [old(ingress.items[0])]
      ensures old(ingress.items)[1..] <= ingress.items
      ensures backends == FanOut(old(backends), [old(ingress.items[0])])
      ensures !old(accept) ==> !accept && FlushMeasure(Snapshot()) < FlushMeasure(old(Snapshot()))
      ensures (forall k | tick <= k :: schedule(k) == []) ==> ingress.items == old(ingress.items)[1..]
    {
      hide IsRun, Exec, FlushMeasure, FanOut;
      now := tick;
      ghost var record, before := ingress.items[0], Snapshot();
      MoveWorks(before, MoveGet);
      TakeRecord();
      while hand.Holding?
        invariant Valid() && tick <= now
        invariant host == before.ctl.host && bridge == before.ctl.bridge && (bridge.Moving? || host.StopFlush?)
        invariant reporters == before.ctl.reporters
        invariant PartlyOffered(before.backends, backends, hand, record)
        invariant ingress.moved == before.ing.moved + [record] && before.ing.items[1..] <= ingress.items
        invariant !before.ctl.accept ==> !accept && FlushMeasure(Snapshot()) < FlushMeasure(before)
        invariant (forall k | tick <= k :: schedule(k) == []) ==> ingress.items == before.ing.items[1..]
        decreases if hand.Holding? then |backends| - hand.next else 0
      {
        InterruptedPut(schedule(now));
        now := now + 1;
      }
      AllOffered(before.backends, backends, record);
    }

    /** Emitters run, then one turn of the loop; `found` is false when the ingress was empty. */
    method InterruptedMove(schedule: nat -> seq<Action>, tick: nat, ghost start: State) returns (now: nat, found: bool)
      requires Valid() && hand == Empty && (bridge.Moving? || host.StopFlush?)
      requires FannedOut(start, Snapshot())
      modifies this
      ensures Valid() && tick < now
      ensures hand == Empty && host == old(host) && bridge == old(bridge) && reporters == old(reporters)
      ensures FannedOut(start, Snapshot()) && (!found ==> ingress.items == [])
      ensures !old(accept) ==> !accept && (found ==> FlushMeasure(Snapshot()) < FlushMeasure(old(Snapshot())))
      ensures found && (forall k | tick <= k :: schedule(k) == []) ==> |ingress.items| < |old(ingress.items)|
    {
      Interfere(schedule(tick));
      now, found := tick + 1, ingress.items != [];
      if found {
        ghost var middle := Snapshot();
        now := MoveOne(schedule, now);
        FannedOutMore(start, middle, Snapshot());
      }
    }

    method BridgeWakes()
      requires Valid() && Enabled(Snapshot(), BridgeWake)
      modifies this
      ensures Valid() && trace == old(trace) + [BridgeWake]
      ensures Snapshot() == Apply(old(Snapshot()), BridgeWake) && bridge.Moving? && !ingress.wake
    {
      ghost var before := Snapshot();
      bridge, ingress := Moving, ingress.(wake := false);
      Took(BridgeWake, before);
    }

    method BridgeWaits()
      requires Valid() && Enabled(Snapshot(), BridgeEmpty)
      modifies this
      ensures Valid() && trace == old(trace) + [BridgeEmpty]
      ensures Snapshot() == Apply(old(Snapshot()), BridgeEmpty)
    {
      ghost var before := Snapshot();
      bridge := Waiting;
      Took(BridgeEmpty, before);
    }

    method StartDrains()
      requires Valid() && host.StopFlush? && hand == Empty && ingress.items == []
      modifies this
      ensures Valid() && trace == old(trace) + [HostStep]
      ensures Snapshot() == Apply(old(Snapshot()), HostStep)
    {
      ghost var before := Snapshot();
      host, backends := StopDrain, MapBackends(backends, StartDrain);
      TookHost(before);
    }

    /**
     * The bridge from one wakeup to its next wait: clear the event, then move records until the
     * ingress is found empty.  Emitters may feed it for as long as the schedule lets them.
     */
    method BridgeRound(schedule: nat -> seq<Action>, quietAfter: nat)
      requires Valid() && Enabled(Snapshot(), BridgeWake)
      requires forall k | quietAfter <= k :: schedule(k) == []
      modifies this
      ensures Valid() && bridge.Waiting? && host == old(host)
      ensures FannedOut(old(Snapshot()), Snapshot()) && ingress.items == [] && hand == Empty
    {
      ghost var before := Snapshot();
      ValidInv();
      BridgeWakes();
      var now, found := 0, true;
      while found
        invariant Valid() && bridge.Moving? && hand == Empty && host == before.ctl.host
        invariant FannedOut(before, Snapshot()) && (!found ==> ingress.items == [])
        decreases found, if now < quietAfter then quietAfter - now else 0, |ingress.items|
      {
        now, found := InterruptedMove(schedule, now, before);
      }
      BridgeWaits();
    }

    /**
     * Stop's flush: the same loop inline, after the bridge has died.  No assumption about the
     * schedule is needed, because the gate is closed.
     */
    method FlushIngress(schedule: nat -> seq<Action>, tick: nat) returns (now: nat)
      requires Valid() && host.StopFlush? && hand == Empty
      modifies this
      ensures Valid() && host.StopDrain? && hand == Empty && reporters == old(reporters)
      ensures old(ingress.moved) + old(ingress.items) <= ingress.moved
      ensures backends == MapBackends(FanOut(old(backends), ingress.moved[|old(ingress.moved)|..]), StartDrain)
    {
      hide IsRun, Exec;
      ghost var before := Snapshot();
      ValidInv();
      var found := true;
      now := tick;
      while found
        invariant Valid() && host.StopFlush? && hand == Empty && !accept && reporters == before.ctl.reporters
        invariant FannedOut(before, Snapshot()) && (!found ==> ingress.items == [])
        decreases found, FlushMeasure(Snapshot())
      {
        now, found := InterruptedMove(schedule, now, before);
      }
      assert ingress.moved + ingress.items == ingress.moved;
      StartDrains();
    }

    // ----- registration -----

    method RegisterBackend(name: string, displayName: Option<string>, queueMaxsize: int) returns (r: Result<()>)
      requires Valid() && host.Idle? && LoopFree(Snapshot())
      modifies this
      ensures Valid()
      ensures r.Err? <==> NameTaken(old(Snapshot()), name)
      ensures r.Err? ==> Snapshot() == old(Snapshot())
      ensures r.Ok? ==>
        Snapshot() == old(Snapshot()).(backends :=
          old(backends) + [FreshBackend(name, displayName, queueMaxsize, old(ingress.moved))])
      ensures r.Ok? ==>
        && |backends| == |old(backends)| + 1
        && var b := backends[|old(backends)|];
        && b.name == name && b.displayName == displayName && b.maxsize == queueMaxsize
        && b.queue == [] && b.unfinished == 0 && b.worker.NoTask? && b.hand == None
    {
      if NameTaken(Snapshot(), name) {
        return Err("backend name is already registered");
      }
      ghost var before := Snapshot();
      backends := backends + [FreshBackend(name, displayName, queueMaxsize, ingress.moved)];
      Took(Register(name, displayName, queueMaxsize), before);
      r := Ok(());
    }

    method RegisterStatusReporter(backend: nat)
      requires Valid() && host.Idle? && backend < |backends|
      modifies this
      ensures Valid() && trace == old(trace) + [RegisterReporter(backend)]
      ensures Snapshot() == Apply(old(Snapshot()), RegisterReporter(backend)) && reporters == old(reporters) + [backend]
    {
      ghost var before := Snapshot();
      reporters := reporters + [backend];
      Took(RegisterReporter(backend), before);
    }

    // ----- start_logging, statement by statement -----

    /** A statement of `start_logging` that touches only the handler's attributes. */
    method StartAssign()
      requires Valid() && InStart(host) && !host.StartIngress? && !host.StartWorkers?
      modifies this
      ensures Valid() && trace == old(trace) + [HostStep]
      ensures Snapshot() == old(Snapshot()).(ctl := ControlStep(old(Snapshot()).ctl, old(ingress.cycle)))
    {
      hide IsRun, Exec;
      ghost var before := Snapshot();
      match host {
        case StartLoop => loopRef := true; host := StartIngress;
        case StartEvent => eventRef := Some(ingress.cycle); host := StartBridge;
        case StartBridge => bridge := Waiting; host := StartAccept;
        case StartAccept => accept := true; host := StartRunning;
        case StartRunning => running := true; host := StartWorkers;
      }
      TookHost(before);
    }

    /** The same after a burst of emitter steps, of which the attributes show nothing. */
    method StartStatement(burst: seq<Action>)
      requires Valid() && InStart(host) && !host.StartIngress? && !host.StartWorkers?
      modifies this
      ensures Valid()
      ensures Snapshot().ctl == ControlStep(old(Snapshot()).ctl, old(ingress.cycle))
      ensures backends == old(backends) && ingress.cycle == old(ingress.cycle)
    {
      hide IsRun, Exec, FlushMeasure;
      Interfere(burst);
      assert Snapshot().ctl == old(Snapshot()).ctl;
      StartAssign();
    }

    method NewIngress(burst: seq<Action>)
      requires Valid() && host.StartIngress?
      modifies this
      ensures Valid()
      ensures Snapshot().ctl == old(Snapshot()).ctl.(ingressRef := Some(old(ingress.cycle) + 1), host := StartEvent)
      ensures ingress.cycle == old(ingress.cycle) + 1 && ingress.items == ingress.entered == []
      ensures !ingress.wake && ingress.pendingWakes == 0 && ingress.maxsize == maxsize
      ensures backends == MapBackends(old(backends), ForgetCycle)
    {
      hide IsRun, Exec, FlushMeasure;
      Interfere(burst);
      AtItsBound();
      ghost var before := Snapshot();
      ingress := Ingress(ingress.cycle + 1, ingress.maxsize, [], false, 0, [], [], []);
      ingressRef := Some(ingress.cycle);
      backends := MapBackends(backends, ForgetCycle);
      host := StartEvent;
      TookHost(before);
    }

    method ScheduleWorkers(burst: seq<Action>)
      requires Valid() && host.StartWorkers?
      modifies this
      ensures Valid()
      ensures Snapshot().ctl == old(Snapshot()).ctl.(host := Idle)
      ensures backends == MapBackends(old(backends), StartWorker) && ingress.cycle == old(ingress.cycle)
    {
      hide IsRun, Exec, FlushMeasure;
      Interfere(burst);
      ghost var before := Snapshot();
      backends := MapBackends(backends, StartWorker);
      host := Idle;
      TookHost(before);
    }

    method BeginStart()
      requires Valid() && host.Idle? && LoopFree(Snapshot()) && !closed && !running
      modifies this
      ensures Valid() && trace == old(trace) + [StartCall]
      ensures Snapshot() == old(Snapshot()).(ctl := old(Snapshot()).ctl.(host := StartLoop))
    {
      hide IsRun, Exec;
      ghost var before := Snapshot();
      host := StartLoop;
      Took(StartCall, before);
    }

    /** The event, the bridge task, then the accept gate, and the running flag last. */
    method OpenGates(schedule: nat -> seq<Action>)
      requires Valid() && host.StartEvent?
      modifies this
      ensures Valid()
      ensures host.StartWorkers? && closed == old(closed) && accept && running && bridge.Waiting?
      ensures backends == old(backends) && ingress.cycle == old(ingress.cycle)
    {
      hide IsRun, Exec;
      StartStatement(schedule(2));
      StartStatement(schedule(3));
      StartStatement(schedule(4));
      StartStatement(schedule(5));
    }

    method StartLogging(schedule: nat -> seq<Action>) returns (r: Result<()>)
      requires Valid() && host.Idle? && LoopFree(Snapshot())
      modifies this
      ensures Valid() && host.Idle?
      ensures r.Ok? <==> !old(closed) && !old(running)
      ensures r.Err? ==> Snapshot() == old(Snapshot())
      ensures r.Ok? ==> accept && running && !closed && bridge.Waiting? && ingress.cycle == old(ingress.cycle) + 1
      ensures r.Ok? ==> backends == MapBackends(MapBackends(old(backends), ForgetCycle), StartWorker)
      ensures r.Ok? ==> |backends| == |old(backends)| && forall b | 0 <= b < |backends| ::
        && backends[b].worker.Alive? && backends[b].queue == old(backends)[b].queue && backends[b].drain.NotDraining?
        && backends[b].offers == [] && backends[b].acks == [] && backends[b].statuses == [] && backends[b].discarded == []
    {
      hide IsRun, Exec;
      if closed {
        return Err("start_logging() called after close()");
      }
      if running {
        return Err("start_logging() called while already running");
      }
      BeginStart();
      StartStatement(schedule(0));
      NewIngress(schedule(1));
      OpenGates(schedule);
      ScheduleWorkers(schedule(6));
      r := Ok(());
    }

    // ----- stop_logging, statement by statement -----

    /** A statement of `stop_logging` that touches only the handler's attributes. */
    method StopAssign()
      requires Valid() && (host.StopAccept? || host.StopCancelBridge? || host.StopAwaitBridge? || host.StopDrain?
                           || host.StopRunning?)
      requires HostReady(Snapshot())
      modifies this
      ensures Valid() && trace == old(trace) + [HostStep]
      ensures Snapshot() == old(Snapshot()).(ctl := ControlStep(old(Snapshot()).ctl, old(ingress.cycle)))
    {
      hide IsRun, Exec;
      ghost var before := Snapshot();
      match host {
        case StopAccept => accept := false; host := StopCancelBridge;
        case StopCancelBridge => bridge := CancelRequested; host := StopAwaitBridge;
        case StopAwaitBridge => host := StopFlush;
        case StopDrain => host := StopReport(0, 0);
        case StopRunning => running := false; host := StopGather;
      }
      TookHost(before);
    }

    method ReleaseAssign()
      requires Valid() && (host.ReleaseLoop? || host.ReleaseIngress? || host.ReleaseEvent? || host.ReleaseBridge?)
      modifies this
      ensures Valid() && trace == old(trace) + [HostStep]
      ensures Snapshot() == old(Snapshot()).(ctl := ControlStep(old(Snapshot()).ctl, old(ingress.cycle)))
    {
      hide IsRun, Exec;
      ghost var before := Snapshot();
      match host {
        case ReleaseLoop => loopRef := false; host := ReleaseIngress;
        case ReleaseIngress => ingressRef := None; host := ReleaseEvent;
        case ReleaseEvent => eventRef := None; host := ReleaseBridge;
        case ReleaseBridge => bridge := NoBridge; host := Idle;
      }
      TookHost(before);
    }

    method BeginStop()
      requires Valid() && Enabled(Snapshot(), StopCall)
      modifies this
      ensures Valid() && trace == old(trace) + [StopCall]
      ensures Snapshot() == old(Snapshot()).(ctl := old(Snapshot()).ctl.(host := StopAccept))
    {
      hide IsRun, Exec;
      ghost var before := Snapshot();
      host := StopAccept;
      Took(StopCall, before);
    }

    /** Close the gate, cancel the bridge and wait until it is gone. */
    method StopBridge(schedule: nat -> seq<Action>)
      requires Valid() && host.StopAccept?
      modifies this
      ensures Valid() && host.StopFlush? && hand == Empty && !accept && bridge.Dead?
      ensures SameRegistration(old(backends), backends) && reporters == old(reporters)
    {
      hide IsRun, Exec, FlushMeasure;
      Interfere(schedule(0));
      StopAssign();
      Interfere(schedule(1));
      StopAssign();
      AwaitBridge(schedule(2));
    }

    method AwaitBridge(burst: seq<Action>)
      requires Valid() && host.StopAwaitBridge?
      modifies this
      ensures Valid() && host.StopFlush? && hand == Empty && !accept && bridge.Dead?
      ensures SameRegistration(old(backends), backends) && reporters == old(reporters)
    {
      hide IsRun, Exec, FlushMeasure;
      Interfere(burst);
      ValidInv();
      if !bridge.Dead? {
        BridgeCancelled();
      }
      StopAssign();
    }

    /** A backend's part of the invariant. */
    lemma ValidBackend(b: nat)
      requires Valid() && b < |backends|
      ensures BackendOk(host, running, ingress.moved, hand, b, backends[b]) && BridgeOk(Snapshot().ctl)
    {
      hide IsRun, Exec;
      ValidInv();
      assert Snapshot().backends[b] == backends[b];
    }

    /** The join of a fully acknowledged queue comes back; a hook that has not been joined when its time is up returns TIMEOUT. */
    method DrainOne(b: nat)
      requires Valid() && host.StopDrain? && b < |backends|
      modifies this
      ensures Valid() && host == old(host) && reporters == old(reporters)
      ensures SameRegistration(old(backends), backends) && backends == old(backends)[b := backends[b]]
      ensures backends[b].drain == DrainedBy(old(backends)[b])
    {
      hide IsRun, Exec, WorkerOk, CountOk, FlowOk, HostReady, HostStepped, EmitterStep;
      ValidBackend(b);
      if backends[b].drain.Joining? && backends[b].unfinished == 0 {
        TaskStep(DrainJoin(b));
      }
      if backends[b].drain.Joined? {
        TaskStep(DrainReturn(b, COMPLETED));
      } else if backends[b].drain.Joining? {
        TaskStep(DrainReturn(b, TIMEOUT));
      } else {
        assert !backends[b].drain.NotDraining?;
      }
    }

    /** `gather` over the drain hooks. */
    method DrainBackends(burst: seq<Action>)
      requires Valid() && host.StopDrain?
      modifies this
      ensures Valid() && host == StopReport(0, 0)
      ensures SameRegistration(old(backends), backends) && reporters == old(reporters)
      ensures forall i | 0 <= i < |backends| :: HonestDrain(backends[i])
      ensures burst == [] ==> forall i | 0 <= i < |old(backends)| && old(backends)[i].drain.Joining? ::
        (backends[i].drain == Drained(COMPLETED) <==> old(backends)[i].unfinished == 0)
    {
      hide IsRun, Exec, FlushMeasure;
      Interfere(burst);
      ghost var start := backends;
      for b := 0 to |backends|
        invariant Valid() && host.StopDrain? && reporters == old(reporters)
        invariant SameRegistration(old(backends), backends)
        invariant forall i | 0 <= i < b :: backends[i].drain == DrainedBy(start[i])
        invariant forall i | b <= i < |backends| :: backends[i] == start[i]
        invariant |backends| == |start|
      {
        DrainOne(b);
      }
      StopAssign();
      DrainsHonest();
    }

    lemma DrainsHonest()
      requires Valid() && host == StopReport(0, 0)
      ensures forall i | 0 <= i < |backends| :: HonestDrain(backends[i])
    {
      hide IsRun, Exec;
      forall i | 0 <= i < |backends| ensures HonestDrain(backends[i]) {
        ValidBackend(i);
      }
    }

    // ----- the reporters -----

    /** One status record for the reporter's own queue, dropped when that queue is full. */
    method PutStatus(burst: seq<Action>, result: BackendDrainResult)
      requires Valid() && host.StopReport? && host.reporter < |reporters| && host.result < |backends|
      requires reporters[host.reporter] < |backends| && result == DrainResult(backends[host.result])
      modifies this
      ensures Valid() && reporters == old(reporters)
      ensures host == StopReport(old(host.reporter), old(host.result) + 1)
      ensures var b := reporters[old(host.reporter)];
        backends == old(backends)[b := StatusTo(old(backends)[b], StatusRecord(result))]
    {
      hide IsRun, Exec, FlushMeasure, StatusTo, DrainResult;
      Interfere(burst);
      PutStatusNow(result);
    }

    method PutStatusNow(result: BackendDrainResult)
      requires Valid() && host.StopReport? && host.reporter < |reporters| && host.result < |backends|
      requires reporters[host.reporter] < |backends| && result == DrainResult(backends[host.result])
      modifies this
      ensures Valid() && reporters == old(reporters)
      ensures host == StopReport(old(host.reporter), old(host.result) + 1)
      ensures var b := reporters[old(host.reporter)];
        backends == old(backends)[b := StatusTo(old(backends)[b], StatusRecord(result))]
    {
      hide IsRun, Exec, StatusTo, DrainResult;
      ghost var before := Snapshot();
      var b := reporters[host.reporter];
      backends := backends[b := StatusTo(backends[b], StatusRecord(result))];
      host := StopReport(host.reporter, host.result + 1);
      TookHost(before);
    }

    /** `report_status` of one backend. */
    method Report(schedule: nat -> seq<Action>, tick: nat, results: seq<BackendDrainResult>) returns (now: nat)
      requires Valid() && host.StopReport? && host.result == 0 && host.reporter < |reporters|
      requires reporters[host.reporter] < |backends| && ResultsOf(backends, results)
      modifies this
      ensures Valid() && reporters == old(reporters)
      ensures host == StopReport(old(host.reporter), |backends|) && ResultsOf(backends, results)
      ensures var b := reporters[old(host.reporter)];
        backends == old(backends)[b := ReportStatus(old(backends)[b], results)]
    {
      hide IsRun, Exec;
      now := tick;
      ghost var start := backends;
      var r, b := host.reporter, reporters[host.reporter];
      assert start[b := ReportStatus(start[b], results[..0])] == start;
      for k := 0 to |results|
        invariant Valid() && reporters == old(reporters)
        invariant host == StopReport(r, k) && |backends| == |start|
        invariant backends == start[b := ReportStatus(start[b], results[..k])]
        invariant ResultsOf(backends, results)
      {
        ReportStep(start, b, results, k);
        PutStatus(schedule(now), results[k]);
        now := now + 1;
      }
      assert results[..|results|] == results;
    }

    method NextReporter()
      requires Valid() && host.StopReport? && host.reporter < |reporters| && host.result == |backends|
      requires reporters[host.reporter] < |backends|
      modifies this
      ensures Valid() && trace == old(trace) + [HostStep]
      ensures Snapshot() == old(Snapshot()).(ctl := old(Snapshot()).ctl.(host := StopReport(old(host.reporter) + 1, 0)))
    {
      hide IsRun, Exec;
      ghost var before := Snapshot();
      host := StopReport(host.reporter + 1, 0);
      TookHost(before);
    }

    method ReportNext(schedule: nat -> seq<Action>, tick: nat, results: seq<BackendDrainResult>) returns (now: nat)
      requires Valid() && host.StopReport? && host.result == 0 && host.reporter < |reporters|
      requires reporters[host.reporter] < |backends| && ResultsOf(backends, results)
      modifies this
      ensures Valid() && reporters == old(reporters)
      ensures host == StopReport(old(host.reporter) + 1, 0) && ResultsOf(backends, results)
      ensures var b := reporters[old(host.reporter)];
        backends == old(backends)[b := ReportStatus(old(backends)[b], results)]
    {
      hide IsRun, Exec;
      now := Report(schedule, tick, results);
      NextReporter();
    }

    /** Every registered reporter in turn. */
    method ReportResults(schedule: nat -> seq<Action>, tick: nat) returns (now: nat)
      requires Valid() && host == StopReport(0, 0)
      requires forall k | 0 <= k < |reporters| :: reporters[k] < |backends|
      modifies this
      ensures Valid() && host.StopRunning? && reporters == old(reporters)
      ensures backends == ReportAll(old(backends), reporters, DrainResults(old(Snapshot())))
      ensures forall b | 0 <= b < |backends| ::
        EveryReporterTells(old(backends), backends, reporters, DrainResults(old(Snapshot())), b)
    {
      hide IsRun, Exec;
      now := tick;
      ghost var start := backends;
      var results, r := DrainResults(Snapshot()), 0;
      while r < |reporters|
        invariant Valid() && reporters == old(reporters) && r <= |reporters|
        invariant host == StopReport(r, 0) && ResultsOf(backends, results)
        invariant backends == ReportAll(start, reporters[..r], results)
      {
        ReportAllStep(start, reporters, results, r);
        now := ReportNext(schedule, now, results);
        r := r + 1;
      }
      assert reporters[..r] == reporters;
      hide EveryReporterTells, ReportAll;
      forall b | 0 <= b < |backends| ensures EveryReporterTells(start, backends, reporters, results, b) {
        EveryReporterTold(start, reporters, results, b);
      }
      EndReports();
    }

    method EndReports()
      requires Valid() && host.StopReport? && host.reporter == |reporters|
      modifies this
      ensures Valid() && trace == old(trace) + [HostStep]
      ensures Snapshot() == old(Snapshot()).(ctl := old(Snapshot()).ctl.(host := StopRunning))
    {
      hide IsRun, Exec;
      ghost var before := Snapshot();
      host := StopRunning;
      TookHost(before);
    }

    // ----- the workers -----

    /** `cancel()` on every worker that has not ended: by the timeout of the first gather, and once more before the second. */
    method CancelWorkers()
      requires Valid() && Gathers(host) && !bridge.Moving? && (host.StopRegather? ==> NoneAlive(backends))
      modifies this
      ensures Valid() && host == old(host) && bridge == old(bridge) && reporters == old(reporters)
      ensures NoneAlive(backends) && (host.StopRegather? ==> NoneSpared(backends))
      ensures SameRegistration(old(backends), backends)
      ensures CancelledUpTo(host, old(backends), backends, |backends|)
    {
      hide IsRun, Exec;
      for b := 0 to |backends|
        invariant Valid() && host == old(host) && bridge == old(bridge) && reporters == old(reporters)
        invariant SameRegistration(old(backends), backends)
        invariant CancelledUpTo(host, old(backends), backends, b)
      {
        if CanCancel(host, backends[b].worker) {
          TaskStep(WorkerCancel(b));
        }
      }
    }

    /** A gather waits for cancelled workers, whose teardown is up to the schedule; `patience` ends the observation. */
    method AwaitWorkers(schedule: nat -> seq<Action>, tick: nat, patience: nat) returns (now: nat)
      requires Valid() && Gathers(host) && NoneAlive(backends)
      modifies this
      ensures Valid() && host == old(host) && NoneAlive(backends) && reporters == old(reporters)
      ensures old(NoneSpared(backends)) ==> NoneSpared(backends)
      ensures SameRegistration(old(backends), backends)
      ensures Settled(Snapshot()) || patience <= now
    {
      hide IsRun, Exec, FlushMeasure, NoneAlive, NoneSpared, Settled;
      now := tick;
      while now < patience && !Settled(Snapshot())
        invariant Valid() && host == old(host) && NoneAlive(backends) && reporters == old(reporters)
        invariant old(NoneSpared(backends)) ==> NoneSpared(backends)
        invariant SameRegistration(old(backends), backends)
      {
        ghost var before := Snapshot();
        Interfere(schedule(now));
        StillEnding(before, Snapshot());
        now := now + 1;
      }
    }

    lemma StillEnding(before: State, after: State)
      requires NoneAlive(before.backends) && Undisturbed(before, after)
      ensures NoneAlive(after.backends) && (NoneSpared(before.backends) ==> NoneSpared(after.backends))
    {
    }

    /** `wait_for(gather(...), timeout)`: the workers end in time, or the timeout cancels those that have not. */
    method GatherOnce(schedule: nat -> seq<Action>, tick: nat, patience: nat) returns (now: nat)
      requires Valid() && host.StopGather?
      modifies this
      ensures Valid() && host.StopGather? && SameRegistration(old(backends), backends) && reporters == old(reporters)
      ensures Settled(Snapshot()) || (patience <= now && Stuck(Snapshot()))
      ensures HostReady(Snapshot()) || NoneAlive(backends)
    {
      hide IsRun, Exec, FlushMeasure, NoneAlive;
      Interfere(schedule(tick));
      now := tick + 1;
      if !HostReady(Snapshot()) {
        BridgeIsGone();
        CancelWorkers();
        now := AwaitWorkers(schedule, now, patience);
        NotSettled(Snapshot());
      }
    }

    lemma NotSettled(s: State)
      requires s.ctl.host.StopGather? && NoneAlive(s.backends)
      ensures Settled(s) || Stuck(s)
    {
      StuckExactly(s);
    }

    /** The first gather was settled by a cancelled worker: the others are cancelled again, and all of them awaited. */
    method GatherAgain(schedule: nat -> seq<Action>, tick: nat, patience: nat) returns (now: nat)
      requires Valid() && host.StopGather? && NoneAlive(backends) && SomeoneDied(Snapshot())
      modifies this
      ensures Valid() && host.StopRegather? && SameRegistration(old(backends), backends) && reporters == old(reporters)
      ensures AllGathered(Snapshot()) || (patience <= now && Unending(Snapshot()))
    {
      hide IsRun, Exec, FlushMeasure, NoneAlive, NoneSpared;
      BridgeIsGone();
      EnterHandler();
      CancelWorkers();
      now := AwaitWorkers(schedule, tick, patience);
      NotRegathered(Snapshot());
    }

    lemma NotRegathered(s: State)
      requires s.ctl.host.StopRegather? && NoneSpared(s.backends)
      ensures Settled(s) <==> AllGathered(s)
      ensures AllGathered(s) || Unending(s)
    {
    }

    method EnterHandler()
      requires Valid() && host.StopGather? && SomeoneDied(Snapshot())
      modifies this
      ensures Valid() && trace == old(trace) + [Regather]
      ensures Snapshot() == old(Snapshot()).(ctl := old(Snapshot()).ctl.(host := StopRegather))
    {
      hide IsRun, Exec;
      ghost var before := Snapshot();
      host := StopRegather;
      Took(Regather, before);
    }

    /**
     * Stop's two gathers.  Workers that end in time are forgotten.  The others are cancelled; the first of them that ends
     * lets stop cancel the rest again, and all are waited for without a further timeout.  Stop is kept here by a teardown
     * that does not end while no cancelled worker has ended, or by one that not even its second cancellation ends.
     */
    method GatherWorkers(schedule: nat -> seq<Action>, tick: nat, patience: nat) returns (now: nat, gathered: bool)
      requires Valid() && host.StopGather?
      modifies this
      ensures Valid() && SameRegistration(old(backends), backends) && reporters == old(reporters)
      ensures gathered ==> host == StopClearQueue(0)
      ensures !gathered ==> patience <= now && (Stuck(Snapshot()) || Unending(Snapshot()))
    {
      hide IsRun, Exec, FlushMeasure, Stuck, Unending;
      now := GatherOnce(schedule, tick, patience);
      gathered := Settled(Snapshot());
      if gathered && SomeoneDied(Snapshot()) {
        now := GatherAgain(schedule, now, patience);
        gathered := AllGathered(Snapshot());
      }
      if gathered {
        ForgetTasks();
      }
    }

    lemma BridgeIsGone()
      requires Valid() && Gathers(host)
      ensures bridge.Dead?
    {
      hide IsRun, Exec;
      ValidInv();
    }

    method ForgetTasks()
      requires Valid() && Gathers(host) && HostReady(Snapshot())
      modifies this
      ensures Valid() && trace == old(trace) + [HostStep]
      ensures Snapshot() == HostStepped(old(Snapshot()))
    {
      hide IsRun, Exec;
      ghost var before := Snapshot();
      host, backends := StopClearQueue(0), MapBackends(backends, ForgetWorker);
      TookHost(before);
    }

    // ----- the final clearing -----

    /** `get_nowait` and `task_done` on one leftover record. */
    method DiscardOne()
      requires Valid() && host.StopClearQueue? && host.backend < |backends| && backends[host.backend].queue != []
      modifies this
      ensures Valid() && trace == old(trace) + [HostStep]
      ensures Snapshot() == old(Snapshot()).(backends :=
        old(backends)[old(host.backend) := DiscardFrom(old(backends)[old(host.backend)])])
    {
      hide IsRun, Exec;
      ghost var before := Snapshot();
      backends := backends[host.backend := DiscardFrom(backends[host.backend])];
      TookHost(before);
    }

    method NextQueue()
      requires Valid() && host.StopClearQueue? && (host.backend < |backends| ==> backends[host.backend].queue == [])
      modifies this
      ensures Valid() && trace == old(trace) + [HostStep]
      ensures Snapshot() == old(Snapshot()).(ctl := old(Snapshot()).ctl.(host :=
        if old(host.backend) < |old(backends)| then StopClearQueue(old(host.backend) + 1) else StopClearIngress))
    {
      hide IsRun, Exec;
      ghost var before := Snapshot();
      host := if host.backend < |backends| then StopClearQueue(host.backend + 1) else StopClearIngress;
      TookHost(before);
    }

    /** Empty one queue, oldest record first. */
    method ClearQueue()
      requires Valid() && host.StopClearQueue? && host.backend < |backends|
      modifies this
      ensures Valid() && host == old(host) && reporters == old(reporters)
      ensures backends == old(backends)[host.backend := Cleared(old(backends)[host.backend])]
    {
      hide IsRun, Exec;
      var b := host.backend;
      ghost var start := backends[b];
      while backends[b].queue != []
        invariant Valid() && host == old(host) && reporters == old(reporters)
        invariant |backends| == |old(backends)| && backends == old(backends)[b := backends[b]]
        invariant Cleared(backends[b]) == Cleared(start)
        decreases |backends[b].queue|
      {
        assert backends[b].queue == [backends[b].queue[0]] + backends[b].queue[1..];
        DiscardOne();
      }
      assert backends[b] == Cleared(backends[b]);
    }

    method ClearQueues()
      requires Valid() && host == StopClearQueue(0)
      modifies this
      ensures Valid() && host.StopClearIngress? && reporters == old(reporters)
      ensures backends == MapBackends(old(backends), Cleared)
    {
      hide IsRun, Exec;
      var b := 0;
      while b < |backends|
        invariant Valid() && reporters == old(reporters) && |backends| == |old(backends)|
        invariant b <= |backends| && host == StopClearQueue(b)
        invariant forall i | 0 <= i < |backends| ::
          backends[i] == (if i < b then Cleared(old(backends)[i]) else old(backends)[i])
      {
        ClearQueue();
        NextQueue();
        b := b + 1;
      }
      NextQueue();
    }

    method DropOne()
      requires Valid() && host.StopClearIngress? && ingress.items != []
      modifies this
      ensures Valid() && trace == old(trace) + [HostStep]
      ensures Snapshot() == old(Snapshot()).(ing := DropItem(old(ingress)))
    {
      hide IsRun, Exec;
      ghost var before := Snapshot();
      ingress := DropItem(ingress);
      TookHost(before);
    }

    /** Drop what raced emitters still put into the ingress; they cannot do so forever. */
    method ClearIngress(schedule: nat -> seq<Action>, tick: nat) returns (now: nat)
      requires Valid() && host.StopClearIngress? && !accept && !running
      modifies this
      ensures Valid() && host.ReleaseLoop? && !running
      ensures ingress.items == [] && old(ingress.dropped) + old(ingress.items) <= ingress.dropped
      ensures backends == old(backends) && reporters == old(reporters)
    {
      hide IsRun, Exec;
      now := tick;
      while ingress.items != []
        invariant Valid() && host.StopClearIngress? && !accept && !running
        invariant old(ingress.dropped) + old(ingress.items) <= ingress.dropped + ingress.items
        invariant backends == old(backends) && reporters == old(reporters)
        decreases FlushMeasure(Snapshot())
      {
        Interfere(schedule(now));
        now := now + 1;
        DropWorks(Snapshot());
        DropOne();
      }
      IngressEmpty();
    }

    method IngressEmpty()
      requires Valid() && host.StopClearIngress? && ingress.items == []
      modifies this
      ensures Valid() && trace == old(trace) + [HostStep]
      ensures Snapshot() == old(Snapshot()).(ctl := old(Snapshot()).ctl.(host := ReleaseLoop))
    {
      hide IsRun, Exec;
      ghost var before := Snapshot();
      host := ReleaseLoop;
      TookHost(before);
    }

    method ReleaseStatement(burst: seq<Action>)
      requires Valid() && (host.ReleaseLoop? || host.ReleaseIngress? || host.ReleaseEvent? || host.ReleaseBridge?)
      modifies this
      ensures Valid() && running == old(running)
      ensures host == AfterRelease(old(host))
      ensures backends == old(backends) && reporters == old(reporters)
    {
      hide IsRun, Exec, FlushMeasure;
      Interfere(burst);
      ReleaseAssign();
    }

    method ReleaseReferences(schedule: nat -> seq<Action>, tick: nat)
      requires Valid() && host.ReleaseLoop? && !running
      modifies this
      ensures Valid() && host.Idle? && !running
      ensures !loopRef && ingressRef == None && eventRef == None && bridge.NoBridge?
      ensures backends == old(backends) && reporters == old(reporters)
    {
      hide IsRun, Exec;
      ReleaseStatement(schedule(tick));
      ReleaseStatement(schedule(tick + 1));
      ReleaseStatement(schedule(tick + 2));
      ReleaseStatement(schedule(tick + 3));
      NothingHeld();
    }

    lemma NothingHeld()
      requires Valid() && host.Idle? && !running
      ensures !loopRef && ingressRef == None && eventRef == None && bridge.NoBridge?
    {
      hide IsRun, Exec;
      ValidInv();
    }

    // ----- stop_logging -----

    /** The drains, the reporters, and the running flag. */
    method DrainAndReport(schedule: nat -> seq<Action>, tick: nat) returns (now: nat)
      requires Valid() && host.StopDrain?
      modifies this
      ensures Valid() && host.StopGather?
      ensures SameRegistration(old(backends), backends) && reporters == old(reporters)
    {
      hide IsRun, Exec;
      DrainBackends(schedule(tick));
      ReportersRegistered();
      ReportAllKeepsRegistration(backends, reporters, DrainResults(Snapshot()));
      now := ReportResults(schedule, tick + 1);
      StopAssign();
    }

    /** The workers, and once they are gathered the leftovers and the references. */
    method TearDown(schedule: nat -> seq<Action>, tick: nat, patience: nat) returns (gathered: bool)
      requires Valid() && host.StopGather?
      modifies this
      ensures Valid() && SameRegistration(old(backends), backends) && reporters == old(reporters)
      ensures gathered ==> host.Idle? && !running
      ensures !gathered ==> Stuck(Snapshot()) || Unending(Snapshot())
    {
      hide IsRun, Exec, Stuck, Unending;
      var now;
      now, gathered := GatherWorkers(schedule, tick, patience);
      if gathered {
        ClearQueues();
        GateClosed();
        now := ClearIngress(schedule, now);
        ReleaseReferences(schedule, now);
      }
    }

    lemma ReportersRegistered()
      requires Valid()
      ensures forall k | 0 <= k < |reporters| :: reporters[k] < |backends|
    {
      hide IsRun, Exec;
      ValidInv();
    }

    lemma GateClosed()
      requires Valid() && InStop(host) && !host.StopAccept?
      ensures !accept && (Clearing(host) ==> !running)
    {
      hide IsRun, Exec;
      ValidInv();
    }

    /** Every theorem about reachable states applies to the object. */
    lemma SnapshotReachable()
      requires Valid()
      ensures Reachable(Snapshot())
    {
    }

    lemma TasksMeanRunning()
      requires Valid() && host.Idle?
      ensures HasTasks(Snapshot()) ==> running
    {
      hide IsRun, Exec;
      ValidInv();
      if HasTasks(Snapshot()) {
        var b :| 0 <= b < |backends| && !backends[b].worker.NoTask?;
        ValidBackend(b);
      }
    }

    /**
     * `stop_logging`.  It is a no-op on a handler that is not running.  Otherwise every part of it ends under every
     * schedule but the wait for the workers it has cancelled.  When stop returns, it leaves the attributes and the queues
     * of a handler that was never started.  When it has not returned within the observation, either a cancelled worker is
     * in its teardown and none has ended, or one that was cancelled twice has not.
     */
    method StopLogging(schedule: nat -> seq<Action>, patience: nat) returns (returned: bool)
      requires Valid() && host.Idle? && LoopFree(Snapshot())
      modifies this
      ensures Valid() && SameRegistration(old(backends), backends) && reporters == old(reporters)
      ensures !old(running) ==> returned && Snapshot() == old(Snapshot())
      ensures returned ==> host.Idle? && !running
      ensures returned ==> Snapshot().ctl == Initial(ingress.maxsize).ctl.(closed := closed, reporters := reporters)
      ensures returned ==> forall i | 0 <= i < |backends| :: LooksFresh(backends[i])
      ensures !returned ==> Stuck(Snapshot()) || Unending(Snapshot())
    {
      hide IsRun, Exec, Stuck, Unending;
      TasksMeanRunning();
      returned := true;
      if running || HasTasks(Snapshot()) {
        returned := RunStop(schedule, patience);
      }
      if returned {
        SnapshotReachable();
        StoppedIsFresh(Snapshot());
      }
    }

    /** The body of `stop_logging` behind its guard. */
    method RunStop(schedule: nat -> seq<Action>, patience: nat) returns (returned: bool)
      requires Valid() && host.Idle? && LoopFree(Snapshot()) && running
      modifies this
      ensures Valid() && SameRegistration(old(backends), backends) && reporters == old(reporters)
      ensures returned ==> host.Idle? && !running
      ensures !returned ==> Stuck(Snapshot()) || Unending(Snapshot())
    {
      hide IsRun, Exec, Stuck, Unending;
      BeginStop();
      StopBridge(schedule);
      ghost var start, from := backends, |ingress.moved|;
      var now := FlushIngress(schedule, 3);
      FanOutKeepsRegistration(start, ingress.moved[from..]);
      now := DrainAndReport(schedule, now);
      returned := TearDown(schedule, now, patience);
    }
  }
}
