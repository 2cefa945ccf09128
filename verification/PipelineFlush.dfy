/** Stop's inline flush ends although emitter threads keep running beside it. */
module PipelineFlush {
  import opened Records
  import opened Pipeline
  import opened PipelineInvariant
  import opened PipelineSteps

  /** The statements an emitter past the accept gate can still execute, `w` being the cost of a record. */
  function EmitterWeight(e: Emitter, w: nat): nat {
    match e
    case AtGate(_) => 0
    case AtReadIngress(_) => w + 5
    case AtReadLoop(_, _) => w + 4
    case AtReadEvent(_, _, _) => w + 3
    case AtPut(_, _, _) => w + 2
    case AtWake(_, _) => 1
    case Returned(_, _) => 0
  }

  function EmittersWeight(es: seq<Emitter>, w: nat): nat {
    if es == [] then 0 else EmittersWeight(es[..|es| - 1], w) + EmitterWeight(es[|es| - 1], w)
  }

  /** One `get_nowait` and N `put_nowait` per record, plus what the emitters past the gate can add. */
  function FlushMeasure(s: State): nat {
    var n := |s.backends|;
    (n + 1) * |s.ing.items|
    + (if s.hand.Holding? && s.hand.next <= n then n - s.hand.next else 0)
    + EmittersWeight(s.emitters, n + 1)
  }

  /** A step of the flush itself, or of an emitter that was already past the gate. */
  predicate FlushWork(s: State, a: Action) {
    a.MoveGet? || a.MovePut? || a.EmitStaleFull? ||
    (a.EmitStep? && a.i < |s.emitters| && !s.emitters[a.i].AtGate?)
  }

  lemma {:induction false} WeightUpdate(es: seq<Emitter>, i: nat, e: Emitter, w: nat)
    requires i < |es|
    ensures EmittersWeight(es[i := e], w) == EmittersWeight(es, w) - EmitterWeight(es[i], w) + EmitterWeight(e, w)
  {
    var front := es[..|es| - 1];
    if i == |es| - 1 {
      assert es[i := e][..|es| - 1] == front;
    } else {
      WeightUpdate(front, i, e, w);
      assert es[i := e][..|es| - 1] == front[i := e];
    }
  }

  lemma EmitterWorks(s: State, i: nat)
    requires !s.ctl.accept
    requires i < |s.emitters| && !s.emitters[i].Returned?
    ensures FlushMeasure(EmitterStep(s, i)) + (if s.emitters[i].AtGate? then 0 else 1) <= FlushMeasure(s)
  {
    var s' := EmitterStep(s, i);
    var n := |s.backends|;
    WeightUpdate(s.emitters, i, s'.emitters[i], n + 1);
    assert (n + 1) * (|s.ing.items| + 1) == (n + 1) * |s.ing.items| + (n + 1);
  }

  /** While the loop is held and the gate is closed, emitters can only use up the measure. */
  lemma EmitActionWorks(s: State, a: Action)
    requires a.EmitCall? || a.EmitStep? || a.EmitStaleFull?
    requires !s.ctl.accept && Enabled(s, a)
    ensures FlushMeasure(Apply(s, a)) + (if FlushWork(s, a) then 1 else 0) <= FlushMeasure(s)
  {
    if a.EmitStep? {
      EmitterWorks(s, a.i);
    } else if a.EmitStaleFull? {
      WeightUpdate(s.emitters, a.i, Returned(s.emitters[a.i].record, Overflow), |s.backends| + 1);
    } else {
      assert (s.emitters + [AtGate(a.record)])[..|s.emitters|] == s.emitters;
    }
  }

  /** Taking a record or handing one on uses up the measure. */
  lemma MoveWorks(s: State, a: Action)
    requires a.MoveGet? || a.MovePut?
    requires Enabled(s, a)
    ensures FlushMeasure(Apply(s, a)) < FlushMeasure(s)
  {
    var n := |s.backends|;
    if a.MoveGet? {
      assert (n + 1) * |s.ing.items| == (n + 1) * (|s.ing.items| - 1) + (n + 1);
    }
  }

  /** Every step taken during the flush leaves the measure alone, except work, which lowers it. */
  lemma FlushStep(s: State, a: Action)
    requires Inv(s) && Enabled(s, a) && s.ctl.host.StopFlush? && Apply(s, a).ctl.host.StopFlush?
    ensures FlushMeasure(Apply(s, a)) + (if FlushWork(s, a) then 1 else 0) <= FlushMeasure(s)
  {
    if a.EmitCall? || a.EmitStep? || a.EmitStaleFull? {
      EmitActionWorks(s, a);
    } else if a.MoveGet? || a.MovePut? {
      MoveWorks(s, a);
    }
  }

  function WorkCount(s: State, acts: seq<Action>): nat
    requires IsRun(s, acts)
  {
    if acts == [] then 0
    else
      var before := acts[..|acts| - 1];
      WorkCount(s, before) + (if FlushWork(Exec(s, before), acts[|acts| - 1]) then 1 else 0)
  }

  /** Stop is in its flush from the first to the last state of the run. */
  ghost predicate StaysInFlush(s: State, acts: seq<Action>)
    requires IsRun(s, acts)
  {
    Exec(s, acts).ctl.host.StopFlush? && (acts == [] || StaysInFlush(s, acts[..|acts| - 1]))
  }

  /**
   * Under every interleaving the flush, together with all emitters that passed the gate before it
   * closed, takes at most `FlushMeasure` steps; emitters that arrive later cost it nothing.
   */
  lemma {:induction false} FlushIsBounded(s: State, acts: seq<Action>)
    requires Inv(s) && IsRun(s, acts) && StaysInFlush(s, acts)
    ensures WorkCount(s, acts) + FlushMeasure(Exec(s, acts)) <= FlushMeasure(s)
  {
    if acts != [] {
      var before := acts[..|acts| - 1];
      FlushIsBounded(s, before);
      RunKeepsInv(s, before);
      FlushStep(Exec(s, before), acts[|acts| - 1]);
    }
  }

  /** And it is never stuck: it can take a record, hand one on, or end. */
  lemma FlushProgress(s: State)
    requires Inv(s) && s.ctl.host.StopFlush?
    ensures Enabled(s, MoveGet) || (s.hand.Holding? && Enabled(s, MovePut(s.hand.next))) || Enabled(s, HostStep)
  {
  }
}
