/**
 * When stop's gathers of the workers end.  The first one is settled by the first cancelled worker that ends; stop then
 * cancels the workers still in their teardown once more and waits for all of them.
 */
module PipelineGather {
  import opened Pipeline

  ghost predicate NoneAlive(bs: seq<Backend>) {
    forall b | 0 <= b < |bs| :: !bs[b].worker.Alive?
  }

  /** The timeout of the first gather has passed: every worker has ended or been cancelled. */
  ghost predicate TimedOut(s: State) {
    s.ctl.host.StopGather? && NoneAlive(s.backends)
  }

  /** Some cancelled worker has not come to the end of its teardown. */
  ghost predicate SomeoneTearsDown(s: State) {
    exists b | 0 <= b < |s.backends| :: TearsDown(s.backends[b].worker)
  }

  /** The first gather waits for the teardown of a cancelled worker and none has ended. */
  ghost predicate Stuck(s: State) {
    TimedOut(s) && SomeoneTearsDown(s) && !SomeoneDied(s)
  }

  /** After `acts` the workers still in their teardown, and those that died, given which were before. */
  ghost predicate StillEnding(before: seq<Backend>, acts: seq<Action>, after: seq<Backend>) {
    && |after| == |before| && NoneAlive(after)
    && forall b | 0 <= b < |before| ::
         && (TearsDown(after[b].worker) <==> TearsDown(before[b].worker) && WorkerDie(b) !in acts)
         && (after[b].worker.Died? <==> before[b].worker.Died? || WorkerDie(b) in acts)
  }

  lemma EmitterKeepsBackends(s: State, i: nat)
    requires i < |s.emitters| && !s.emitters[i].Returned?
    ensures EmitterStep(s, i).backends == s.backends && EmitterStep(s, i).ctl == s.ctl
  {
  }

  lemma GatherStep(s: State, a: Action)
    requires Gathers(s.ctl.host) && NoneAlive(s.backends) && Enabled(s, a) && !a.HostStep?
    ensures var t := Apply(s, a);
      && Gathers(t.ctl.host) && (!a.Regather? || s.ctl.host.StopRegather? ==> t.ctl.host == s.ctl.host)
      && StillEnding(s.backends, [a], t.backends)
  {
    hide EmitterStep, HostReady, HostStepped;
    if a.EmitStep? {
      EmitterKeepsBackends(s, a.i);
    }
  }

  lemma StillEndingMore(before: seq<Backend>, acts: seq<Action>, middle: seq<Backend>, a: Action, after: seq<Backend>)
    requires StillEnding(before, acts, middle) && StillEnding(middle, [a], after)
    ensures StillEnding(before, acts + [a], after)
  {
    forall b | 0 <= b < |before|
      ensures TearsDown(after[b].worker) <==> TearsDown(before[b].worker) && WorkerDie(b) !in acts + [a]
      ensures after[b].worker.Died? <==> before[b].worker.Died? || WorkerDie(b) in acts + [a]
    {
      assert WorkerDie(b) in acts + [a] <==> WorkerDie(b) in acts || WorkerDie(b) in [a];
    }
  }

  lemma NothingEnded(s: State)
    requires NoneAlive(s.backends)
    ensures StillEnding(s.backends, [], s.backends)
  {
  }

  lemma {:induction false} GatherRun(s: State, acts: seq<Action>)
    requires Gathers(s.ctl.host) && NoneAlive(s.backends) && IsRun(s, acts) && HostStep !in acts
    ensures var t := Exec(s, acts);
      && Gathers(t.ctl.host) && (Regather !in acts || s.ctl.host.StopRegather? ==> t.ctl.host == s.ctl.host)
      && StillEnding(s.backends, acts, t.backends)
  {
    hide IsRun, Exec, Enabled, Apply, NoneAlive, StillEnding;
    if acts == [] {
      NoSteps(s);
      NothingEnded(s);
    } else {
      var before, a := acts[..|acts| - 1], acts[|acts| - 1];
      RunLast(s, acts);
      assert a in acts;
      assert forall x | x in before :: x in acts;
      GatherRun(s, before);
      StillNoneAlive(s.backends, before, Exec(s, before).backends);
      GatherStep(Exec(s, before), a);
      StillEndingMore(s.backends, before, Exec(s, before).backends, a, Exec(s, acts).backends);
      assert acts == before + [a];
    }
  }

  lemma StillNoneAlive(before: seq<Backend>, acts: seq<Action>, after: seq<Backend>)
    requires StillEnding(before, acts, after)
    ensures NoneAlive(after)
  {
  }

  /**
   * When the first gather ends.  From its timeout on, over every run of everybody else, stop is stuck in it if and only
   * if a worker is in its teardown and no cancelled worker has ended.
   */
  lemma GatherEndsExactly(s: State, acts: seq<Action>)
    requires TimedOut(s) && IsRun(s, acts) && HostStep !in acts && Regather !in acts
    ensures Stuck(Exec(s, acts)) <==> !Enabled(Exec(s, acts), HostStep) && !Enabled(Exec(s, acts), Regather)
    ensures Stuck(Exec(s, acts)) <==>
      SomeoneTearsDown(s) && !SomeoneDied(s) && forall b: nat | b < |s.backends| :: WorkerDie(b) !in acts
  {
    GatherRun(s, acts);
    var t := Exec(s, acts);
    hide IsRun, Exec, Apply;
    StuckExactly(t);
    assert forall b | 0 <= b < |s.backends| :: t.backends[b].worker.Died? <==> s.backends[b].worker.Died? || WorkerDie(b) in acts;
    if SomeoneTearsDown(s) && !SomeoneDied(s) && forall b: nat | b < |s.backends| :: WorkerDie(b) !in acts {
      var b :| 0 <= b < |s.backends| && TearsDown(s.backends[b].worker);
      assert TearsDown(t.backends[b].worker);
    }
  }

  lemma StuckExactly(s: State)
    requires TimedOut(s)
    ensures Stuck(s) <==> !Enabled(s, HostStep) && !Enabled(s, Regather)
  {
    if !SomeoneTearsDown(s) {
      assert AllGathered(s);
    }
  }

  /** The second gather ends if and only if every worker that was in its teardown has ended: no timeout bounds it. */
  lemma RegatherEndsExactly(s: State, acts: seq<Action>)
    requires s.ctl.host.StopRegather? && NoneAlive(s.backends) && IsRun(s, acts) && HostStep !in acts
    ensures Enabled(Exec(s, acts), HostStep) <==>
      forall b: nat | b < |s.backends| && TearsDown(s.backends[b].worker) :: WorkerDie(b) in acts
  {
    GatherRun(s, acts);
    var t := Exec(s, acts);
    hide IsRun, Exec, Apply;
    if Enabled(t, HostStep) {
      forall b: nat | b < |s.backends| && TearsDown(s.backends[b].worker) ensures WorkerDie(b) in acts {
        assert !TearsDown(t.backends[b].worker);
      }
    } else {
      var b: nat :| b < |t.backends| && !TaskEnded(t.backends[b].worker);
      assert TearsDown(s.backends[b].worker) && WorkerDie(b) !in acts;
    }
  }

  /** While a worker is in its teardown, only `Regather` gets stop past the first gather, once somebody has died. */
  lemma FirstGatherStep(s: State, a: Action, b: nat)
    requires s.ctl.host.StopGather? && b < |s.backends| && TearsDown(s.backends[b].worker)
    requires Enabled(s, a) && !a.Regather?
    ensures var t := Apply(s, a);
      t.ctl.host.StopGather? && (SomeoneDied(t) <==> SomeoneDied(s) || a.WorkerDie?)
  {
    hide EmitterStep, HostStepped;
    if a.EmitStep? {
      EmitterKeepsBackends(s, a.i);
    }
    var t := Apply(s, a);
    if a.WorkerDie? {
      assert t.backends[a.b].worker.Died?;
    } else if SomeoneDied(s) {
      var k :| 0 <= k < |s.backends| && s.backends[k].worker.Died?;
      assert t.backends[k].worker.Died?;
    }
  }
}
