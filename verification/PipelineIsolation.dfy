/** A backend is not affected by the others: not by a full queue, nor by a slow, dead or cancelled worker. */
module PipelineIsolation {
  import opened Records
  import opened QueueBackend
  import opened Pipeline

  /**
   * The two states differ at most in backends other than `b`.  Shutdown-status records name the other backends and how
   * they drained; if `b` is `told` of that, the results to report are shared too.
   */
  ghost predicate SameFor(told: bool, b: nat, s: State, t: State) {
    && s.ctl == t.ctl && s.ing == t.ing && s.hand == t.hand && s.emitters == t.emitters
    && |s.backends| == |t.backends|
    && (b < |s.backends| ==> s.backends[b] == t.backends[b])
    && (told ==> forall k | 0 <= k < |s.backends| :: DrainResult(s.backends[k]) == DrainResult(t.backends[k]))
  }

  /** Stop's clearing takes a record out of the queue of a backend other than `b`. */
  predicate DiscardsElsewhere(b: nat, s: State) {
    s.ctl.host.StopClearQueue? && s.ctl.host.backend < |s.backends| && s.ctl.host.backend != b
    && s.backends[s.ctl.host.backend].queue != []
  }

  /** A step that concerns a backend other than `b` alone. */
  predicate Foreign(told: bool, b: nat, s: State, a: Action) {
    || ((a.WorkerGet? || a.WorkerAck? || a.WorkerExit? || a.WorkerDie? || a.WorkerCancel? || a.DrainJoin?) && a.b != b)
    || (a.DrainReturn? && a.b != b && !told)
    || (a.HostStep? && DiscardsElsewhere(b, s))
  }

  /** What remains of a schedule when the steps that concern other backends alone are left out. */
  function SeenBy(told: bool, b: nat, s: State, acts: seq<Action>): seq<Action>
    requires IsRun(s, acts)
  {
    if acts == [] then []
    else
      var before, last := acts[..|acts| - 1], acts[|acts| - 1];
      SeenBy(told, b, s, before) + (if Foreign(told, b, Exec(s, before), last) then [] else [last])
  }

  lemma ForeignTaskStep(told: bool, b: nat, s: State, a: Action)
    requires Enabled(s, a) && TaskAction(a) && a.b != b && (a.DrainReturn? ==> !told)
    ensures SameFor(told, b, s, Apply(s, a))
  {
    hide HostStepped, EmitterStep;
  }

  lemma ForeignDiscard(told: bool, b: nat, s: State)
    requires DiscardsElsewhere(b, s)
    ensures SameFor(told, b, s, HostStepped(s))
  {
  }

  lemma ForeignStep(told: bool, b: nat, s: State, a: Action)
    requires Enabled(s, a) && Foreign(told, b, s, a)
    ensures SameFor(told, b, s, Apply(s, a))
  {
    hide SameFor, HostStepped, EmitterStep, DiscardsElsewhere;
    if a.HostStep? {
      ForeignDiscard(told, b, s);
    } else {
      ForeignTaskStep(told, b, s, a);
    }
  }

  lemma LoopStepAlike(told: bool, b: nat, s: State, t: State, a: Action)
    requires a.WakeCallback? || a.BridgeWake? || a.MoveGet? || a.MovePut? || a.BridgeEmpty? || a.BridgeDie?
    requires SameFor(told, b, s, t) && Enabled(s, a) && Enabled(t, a)
    ensures SameFor(told, b, Apply(s, a), Apply(t, a))
  {
  }

  predicate TaskAction(a: Action) {
    a.WorkerGet? || a.WorkerAck? || a.WorkerExit? || a.WorkerDie? || a.WorkerCancel? || a.DrainJoin? || a.DrainReturn?
  }

  lemma TaskStepAlike(told: bool, b: nat, s: State, t: State, a: Action)
    requires TaskAction(a) && (a.b == b || (told && a.DrainReturn?))
    requires SameFor(told, b, s, t) && Enabled(s, a) && Enabled(t, a)
    ensures SameFor(told, b, Apply(s, a), Apply(t, a))
  {
  }

  lemma EmitterStepAlike(told: bool, b: nat, s: State, t: State, i: nat)
    requires SameFor(told, b, s, t) && i < |s.emitters| && !s.emitters[i].Returned?
    ensures SameFor(told, b, EmitterStep(s, i), EmitterStep(t, i))
  {
  }

  lemma CallAlike(told: bool, b: nat, s: State, t: State, a: Action)
    requires a.EmitCall? || a.EmitStaleFull? || a.Register? || a.RegisterReporter? || a.StartCall? || a.StopCall? || a.CloseCall?
          || a.Regather?
    requires SameFor(told, b, s, t) && Enabled(s, a) && Enabled(t, a)
    ensures SameFor(told, b, Apply(s, a), Apply(t, a))
  {
  }

  /** The statements of start and stop that go over all backends. */
  lemma AllBackendsAlike(told: bool, b: nat, s: State, t: State)
    requires s.ctl.host.StartIngress? || s.ctl.host.StartWorkers? || s.ctl.host.StopFlush? || Gathers(s.ctl.host)
    requires SameFor(told, b, s, t) && HostReady(s) && HostReady(t)
    ensures SameFor(told, b, HostStepped(s), HostStepped(t))
  {
  }

  lemma ReportAlike(told: bool, b: nat, s: State, t: State)
    requires s.ctl.host.StopReport? && (b in s.ctl.reporters ==> told)
    requires SameFor(told, b, s, t) && HostReady(s) && HostReady(t)
    ensures SameFor(told, b, HostStepped(s), HostStepped(t))
  {
    hide StatusRecord;
    var r, k := s.ctl.host.reporter, s.ctl.host.result;
    if r < |s.ctl.reporters| && k < |s.backends| && s.ctl.reporters[r] == b {
      assert DrainResult(s.backends[k]) == DrainResult(t.backends[k]);
    }
  }

  lemma ClearingAlike(told: bool, b: nat, s: State, t: State)
    requires s.ctl.host.StopClearQueue? || s.ctl.host.StopClearIngress?
    requires SameFor(told, b, s, t) && !DiscardsElsewhere(b, s) && !DiscardsElsewhere(b, t)
    ensures SameFor(told, b, HostStepped(s), HostStepped(t))
  {
  }

  lemma ControlAlike(told: bool, b: nat, s: State, t: State)
    requires var h := s.ctl.host;
      !h.StartIngress? && !h.StartWorkers? && !h.StopFlush? && !Gathers(h) && !h.StopReport? && !h.StopClearQueue?
      && !h.StopClearIngress?
    requires SameFor(told, b, s, t) && HostReady(s) && HostReady(t)
    ensures SameFor(told, b, HostStepped(s), HostStepped(t))
  {
    hide ControlStep;
  }

  lemma HostStepAlike(told: bool, b: nat, s: State, t: State)
    requires SameFor(told, b, s, t) && HostReady(s) && HostReady(t) && (b in s.ctl.reporters ==> told)
    requires !DiscardsElsewhere(b, s) && !DiscardsElsewhere(b, t)
    ensures SameFor(told, b, HostStepped(s), HostStepped(t))
  {
    hide SameFor, HostStepped, HostReady, DiscardsElsewhere;
    var h := s.ctl.host;
    if h.StartIngress? || h.StartWorkers? || h.StopFlush? || Gathers(h) {
      AllBackendsAlike(told, b, s, t);
    } else if h.StopReport? {
      ReportAlike(told, b, s, t);
    } else if h.StopClearQueue? || h.StopClearIngress? {
      ClearingAlike(told, b, s, t);
    } else {
      ControlAlike(told, b, s, t);
    }
  }

  lemma StepAlike(told: bool, b: nat, s: State, t: State, a: Action)
    requires SameFor(told, b, s, t) && Enabled(s, a) && Enabled(t, a) && (b in s.ctl.reporters ==> told)
    requires !Foreign(told, b, s, a) && !Foreign(told, b, t, a)
    ensures SameFor(told, b, Apply(s, a), Apply(t, a))
  {
    hide SameFor, HostStepped, EmitterStep;
    if TaskAction(a) {
      TaskStepAlike(told, b, s, t, a);
    } else if a.EmitStep? {
      SameEmitters(told, b, s, t);
      EmitterStepAlike(told, b, s, t, a.i);
    } else if a.HostStep? {
      HostStepAlike(told, b, s, t);
    } else if a.WakeCallback? || a.BridgeWake? || a.MoveGet? || a.MovePut? || a.BridgeEmpty? || a.BridgeDie? {
      LoopStepAlike(told, b, s, t, a);
    } else {
      CallAlike(told, b, s, t, a);
    }
  }

  lemma SameEmitters(told: bool, b: nat, s: State, t: State)
    requires SameFor(told, b, s, t)
    ensures s.emitters == t.emitters
  {
  }

  /** Reporters are only ever added. */
  lemma ReportersGrow(s: State, a: Action, b: nat)
    requires Enabled(s, a) && b in s.ctl.reporters
    ensures b in Apply(s, a).ctl.reporters
  {
    hide HostStepped, ReadStep;
    if a.HostStep? {
      HostKeepsReporters(s);
    }
  }

  lemma HostKeepsReporters(s: State)
    requires HostReady(s)
    ensures HostStepped(s).ctl.reporters == s.ctl.reporters
  {
    ControlKeepsReporters(s.ctl, s.ing.cycle);
    hide ControlStep, DiscardFrom, StatusTo, DrainResult;
  }

  lemma ControlKeepsReporters(ctl: Control, cycle: nat)
    ensures ControlStep(ctl, cycle).reporters == ctl.reporters
  {
  }

  /**
   * Take two handlers that agree on backend `b` and on everything shared, while the other backends have any queues,
   * bounds and contents.  Let each run under its own schedule -- emitters, starts, stops with their hand-over from
   * bridge to flush, drains, cancellations, clearing and registrations included -- the two schedules agreeing once the
   * steps that concern other backends alone are left out.  Whether stop cancels the workers a second time concerns all.
   * Then they still agree: backend `b` was offered, accepted, refused, acknowledged and delivered the very same records,
   * and discarded the same ones.  A backend that reports the status of the others has to be told the same of them.
   */
  lemma {:induction false} OthersDoNotMatter(told: bool, b: nat, s: State, t: State, u: seq<Action>, v: seq<Action>)
    requires SameFor(told, b, s, t)
    requires IsRun(s, u) && IsRun(t, v)
    requires told || b !in Exec(s, u).ctl.reporters
    requires SeenBy(told, b, s, u) == SeenBy(told, b, t, v)
    ensures SameFor(told, b, Exec(s, u), Exec(t, v))
    decreases |u| + |v|
  {
    hide SameFor, Enabled, Apply, Foreign;
    if u != [] && Foreign(told, b, Exec(s, u[..|u| - 1]), u[|u| - 1]) {
      LeaveOutLeft(told, b, s, t, u, v);
    } else if v != [] && Foreign(told, b, Exec(t, v[..|v| - 1]), v[|v| - 1]) {
      LeaveOutRight(told, b, s, t, u, v);
    } else if u != [] {
      StepBoth(told, b, s, t, u, v);
    }
  }

  lemma {:induction false} LeaveOutLeft(told: bool, b: nat, s: State, t: State, u: seq<Action>, v: seq<Action>)
    requires SameFor(told, b, s, t)
    requires IsRun(s, u) && IsRun(t, v) && u != [] && Foreign(told, b, Exec(s, u[..|u| - 1]), u[|u| - 1])
    requires told || b !in Exec(s, u).ctl.reporters
    requires SeenBy(told, b, s, u) == SeenBy(told, b, t, v)
    ensures SameFor(told, b, Exec(s, u), Exec(t, v))
    decreases |u| + |v|, 0
  {
    var before, a := u[..|u| - 1], u[|u| - 1];
    hide Enabled, Apply, Foreign, SameFor;
    RunLast(s, u);
    var x, y := Exec(s, before), Exec(t, v);
    ForeignStep(told, b, x, a);
    if b in x.ctl.reporters {
      ReportersGrow(x, a, b);
    }
    OthersDoNotMatter(told, b, s, t, before, v);
    SameForThrough(told, b, Apply(x, a), x, y);
  }

  lemma {:induction false} LeaveOutRight(told: bool, b: nat, s: State, t: State, u: seq<Action>, v: seq<Action>)
    requires SameFor(told, b, s, t)
    requires IsRun(s, u) && IsRun(t, v) && v != [] && Foreign(told, b, Exec(t, v[..|v| - 1]), v[|v| - 1])
    requires told || b !in Exec(s, u).ctl.reporters
    requires SeenBy(told, b, s, u) == SeenBy(told, b, t, v)
    ensures SameFor(told, b, Exec(s, u), Exec(t, v))
    decreases |u| + |v|, 0
  {
    var before, a := v[..|v| - 1], v[|v| - 1];
    hide Enabled, Apply, Foreign, SameFor;
    RunLast(t, v);
    var x, y := Exec(s, u), Exec(t, before);
    ForeignStep(told, b, y, a);
    OthersDoNotMatter(told, b, s, t, u, before);
    SameForThrough(told, b, Apply(y, a), y, x);
  }

  lemma {:induction false} StepBoth(told: bool, b: nat, s: State, t: State, u: seq<Action>, v: seq<Action>)
    requires SameFor(told, b, s, t)
    requires IsRun(s, u) && IsRun(t, v) && u != [] && !Foreign(told, b, Exec(s, u[..|u| - 1]), u[|u| - 1])
    requires v != [] ==> !Foreign(told, b, Exec(t, v[..|v| - 1]), v[|v| - 1])
    requires told || b !in Exec(s, u).ctl.reporters
    requires SeenBy(told, b, s, u) == SeenBy(told, b, t, v)
    ensures SameFor(told, b, Exec(s, u), Exec(t, v))
    decreases |u| + |v|, 0
  {
    hide Enabled, Apply, Foreign, SameFor;
    var seen := SeenBy(told, b, s, u);
    var u', v' := u[..|u| - 1], v[..|v| - 1];
    RunLast(s, u);
    RunLast(t, v);
    assert seen[|seen| - 1] == u[|u| - 1] && seen[..|seen| - 1] == SeenBy(told, b, s, u');
    assert seen[|seen| - 1] == v[|v| - 1] && seen[..|seen| - 1] == SeenBy(told, b, t, v');
    var x, y := Exec(s, u'), Exec(t, v');
    if b in x.ctl.reporters {
      ReportersGrow(x, u[|u| - 1], b);
    }
    OthersDoNotMatter(told, b, s, t, u', v');
    StepAlike(told, b, x, y, u[|u| - 1]);
  }

  /** `x` and `z` both agree with `y`, in whichever order. */
  lemma SameForThrough(told: bool, b: nat, x: State, y: State, z: State)
    requires SameFor(told, b, y, x) && (SameFor(told, b, y, z) || SameFor(told, b, z, y))
    ensures SameFor(told, b, x, z) && SameFor(told, b, z, x)
  {
  }
}
