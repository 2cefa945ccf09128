/**
 * A cancelled broker worker awaits its final `disconnect()`, and `stop_logging` awaits the worker: until that returns, or
 * another cancelled worker ends and stop cancels this one again.
 */
module BrokerHang {
  import opened Records
  import opened QueueBackend
  import opened Broker
  import opened BrokerTheorems
  import opened WorkerView
  import opened BrokerRefinement
  import opened Backoff
  import P = Pipeline
  import PT = PipelineTheorems
  import G = PipelineGather

  /** The worker was cancelled and is in the final `disconnect()` of its outer `finally`. */
  predicate InLastDisconnect(s: State) {
    s.task.pc.FinalDisconnect? && s.task.cancelled
  }

  /** The `disconnect()` returns or raises, or a second cancellation cuts it off. */
  predicate Leaves(a: Action) {
    Disconnects(a) || a.Cancel?
  }

  lemma OnlyTheseLeave(s: State, a: Action)
    requires InLastDisconnect(s) && Enabled(s, a)
    ensures if Leaves(a) then Apply(s, a).task.pc.Ended? else InLastDisconnect(Apply(s, a))
  {
    hide NextDelay;
  }

  /** It leaves that await exactly when the `disconnect()` returns or raises or a second cancellation arrives. */
  lemma {:induction false} TeardownEndsExactly(s: State, acts: seq<Action>)
    requires InLastDisconnect(s) && IsRun(s, acts)
    requires forall k | 0 <= k < |acts| :: !acts[k].Start?
    ensures var t := Exec(s, acts);
      if exists k :: 0 <= k < |acts| && Leaves(acts[k]) then t.task.pc.Ended? else InLastDisconnect(t)
  {
    hide IsRun, Exec, Enabled, Apply;
    if acts == [] {
      NoSteps(s);
    } else {
      var before, a := acts[..|acts| - 1], acts[|acts| - 1];
      RunLast(s, acts);
      TeardownEndsExactly(s, before);
      var t := Exec(s, before);
      if exists k :: 0 <= k < |before| && Leaves(before[k]) {
        var k :| 0 <= k < |before| && Leaves(before[k]);
        assert Leaves(acts[k]);
        EndedStays(t, a);
      } else {
        OnlyTheseLeave(t, a);
        if Leaves(a) {
          assert Leaves(acts[|acts| - 1]);
        }
      }
    }
  }

  lemma EndedStays(s: State, a: Action)
    requires s.task.pc.Ended? && Enabled(s, a) && !a.Start?
    ensures Apply(s, a).task.pc.Ended?
  {
    hide NextDelay;
  }

  // ----- stop, waiting for it -----

  /** The last `disconnect()` of the worker returns or raises. */
  predicate IsDisconnect(x: JointAction) {
    match x
    case Own(a) => Disconnects(a)
    case Other(_) => false
  }

  /** Another cancelled worker ends. */
  predicate OtherDies(x: JointAction) {
    match x
    case Own(_) => false
    case Other(b) => b.WorkerDie?
  }

  /** Stop is in its first gather and this worker, cancelled by it, in its last `disconnect()`. */
  ghost predicate Lingering(j: Joint, i: nat) {
    JointOk(j, i) && j.p.ctl.host.StopGather? && InLastDisconnect(j.s)
  }

  /** ... and no cancelled worker has ended yet. */
  ghost predicate Hanging(j: Joint, i: nat) {
    Lingering(j, i) && !P.SomeoneDied(j.p)
  }

  /** Stop can go on: its first gather has been settled. */
  ghost predicate GoesOn(p: P.State) {
    P.Enabled(p, P.HostStep) || P.Enabled(p, P.Regather)
  }

  lemma LingeringTask(j: Joint, i: nat)
    requires Lingering(j, i)
    ensures i < |j.p.backends| && j.p.backends[i].worker.Cancelling?
  {
    hide PT.Reachable, Reachable;
  }

  lemma LingeringGoesOn(j: Joint, i: nat)
    requires Lingering(j, i)
    ensures GoesOn(j.p) <==> P.SomeoneDied(j.p)
  {
    LingeringTask(j, i);
    hide Lingering;
  }

  /** One step: stop stays where it is, and this worker too. */
  lemma LingeringStep(j: Joint, i: nat, x: JointAction, k: Joint)
    requires Lingering(j, i) && JointStep(j, i, x, k) && !IsDisconnect(x) && x != Other(P.Regather)
    ensures Lingering(k, i) && (P.SomeoneDied(k.p) <==> P.SomeoneDied(j.p) || OtherDies(x))
  {
    JointStepOk(j, i, x, k);
    LingeringTask(j, i);
    OthersStep(j, i, x, k);
    OtherWaits(j, i, x.b, k);
  }

  lemma OthersStep(j: Joint, i: nat, x: JointAction, k: Joint)
    requires Lingering(j, i) && JointStep(j, i, x, k) && !IsDisconnect(x)
    ensures x.Other?
  {
    hide JointOk, P.IsRun, P.Exec, Apply;
    forall cleared: bool ensures IsCancelled in MovesOf(j.s, Cancel(cleared)) {
      assert MovesOf(j.s, Cancel(cleared))[0] == IsCancelled;
    }
  }

  lemma OtherWaits(j: Joint, i: nat, b: P.Action, k: Joint)
    requires InLastDisconnect(j.s) && JointStep(j, i, Other(b), k) && j.p.ctl.host.StopGather? && b != P.Regather
    requires i < |j.p.backends| && j.p.backends[i].worker.Cancelling?
    ensures InLastDisconnect(k.s) && k.p.ctl.host.StopGather?
    ensures P.SomeoneDied(k.p) <==> P.SomeoneDied(j.p) || b.WorkerDie?
  {
    hide P.Apply, P.Enabled, FeedOf, Apply, Enabled, NextDelay;
    G.FirstGatherStep(j.p, b, i);
    FedInTeardown(j.s, FeedOf(j.p, b, i));
  }

  lemma FedInTeardown(s: State, f: Feed)
    requires InLastDisconnect(s) && Counted(s.past) && CanFeed(ViewOf(s), f)
    ensures InLastDisconnect(AfterFeed(s, f))
  {
  }

  /**
   * `stop_logging` hangs for as long as the broker does, unless another cancelled worker ends.  Once a worker cancelled by
   * the gather is in its last `disconnect()`, then under every schedule in which that call neither returns nor raises,
   * stop can leave the first gather if and only if some other cancelled worker has come to its end.
   */
  lemma {:induction false} StopHangsOnDisconnect(i: nat, xs: seq<JointAction>, js: seq<Joint>)
    requires JointRun(i, xs, js) && Hanging(js[0], i)
    requires forall k | 0 <= k < |xs| :: !IsDisconnect(xs[k]) && xs[k] != Other(P.Regather)
    ensures Lingering(js[|xs|], i)
    ensures P.SomeoneDied(js[|xs|].p) <==> exists k :: 0 <= k < |xs| && OtherDies(xs[k])
    ensures GoesOn(js[|xs|].p) <==> exists k :: 0 <= k < |xs| && OtherDies(xs[k])
    decreases |xs|
  {
    hide Lingering, JointStep, GoesOn, P.SomeoneDied;
    if xs != [] {
      var n := |xs| - 1;
      var us, hs := xs[..n], js[..n + 1];
      forall k | 0 <= k < n ensures JointStep(hs[k], i, us[k], hs[k + 1]) {
        assert JointStep(js[k], i, xs[k], js[k + 1]);
      }
      StopHangsOnDisconnect(i, us, hs);
      assert hs[n] == js[n];
      LingeringStep(js[n], i, xs[n], js[n + 1]);
      if exists k :: 0 <= k < n && OtherDies(us[k]) {
        var k :| 0 <= k < n && OtherDies(us[k]);
        assert OtherDies(xs[k]);
      }
    }
    LingeringGoesOn(js[|xs|], i);
  }

  /** When one has, stop goes on to cancel this worker again, and that ends it, with its client left behind or not. */
  lemma SecondCancelFrees(j: Joint, i: nat, cleared: bool) returns (m: Joint, k: Joint)
    requires Lingering(j, i) && P.SomeoneDied(j.p)
    ensures JointStep(j, i, Other(P.Regather), m) && JointStep(m, i, Own(Cancel(cleared)), k)
    ensures JointOk(k, i) && k.p.ctl.host.StopRegather? && k.s.task.pc.Ended?
    ensures i < |k.p.backends| && k.p.backends == j.p.backends[i := k.p.backends[i]] && k.p.backends[i].worker.Died?
    ensures k.s.task.client == if cleared then None else j.s.task.client
  {
    LingeringTask(j, i);
    m := Joint(P.Apply(j.p, P.Regather), j.s);
    RegatherStep(j, i, m);
    hide JointOk, JointEnabled, JointStep;
    SecondCancelMoves(m, i, cleared);
    k := JointStepExists(m, i, Own(Cancel(cleared)));
    CancelledTwice(m, i, cleared, k);
  }

  lemma RegatherStep(j: Joint, i: nat, m: Joint)
    requires Lingering(j, i) && P.SomeoneDied(j.p) && m == Joint(P.Apply(j.p, P.Regather), j.s)
    ensures JointStep(j, i, Other(P.Regather), m) && JointOk(m, i)
  {
    LingeringTask(j, i);
    hide JointOk;
    assert JointStep(j, i, Other(P.Regather), m) by { RegatherFeeds(j, i, m); }
    JointStepOk(j, i, Other(P.Regather), m);
  }

  lemma RegatherFeeds(j: Joint, i: nat, m: Joint)
    requires Lingering(j, i) && P.SomeoneDied(j.p) && m == Joint(P.Apply(j.p, P.Regather), j.s)
    requires i < |j.p.backends|
    ensures JointStep(j, i, Other(P.Regather), m)
  {
    hide PT.Reachable, Reachable;
  }

  lemma SecondCancelMoves(j: Joint, i: nat, cleared: bool)
    requires JointOk(j, i) && j.p.ctl.host.StopRegather? && InLastDisconnect(j.s)
    ensures MovesOf(j.s, Cancel(cleared)) == [IsCancelled, Dies] && JointEnabled(j, i, Own(Cancel(cleared)))
  {
    PT.ReachableInv(j.p);
    hide PT.Reachable, Reachable;
    assert CancelMoves(None, true) == [IsCancelled, Dies];
  }

  lemma CancelledTwice(m: Joint, i: nat, cleared: bool, k: Joint)
    requires m.p.ctl.host.StopRegather? && InLastDisconnect(m.s) && JointStep(m, i, Own(Cancel(cleared)), k)
    requires MovesOf(m.s, Cancel(cleared)) == [IsCancelled, Dies] && i < |m.p.backends|
    ensures k.p.ctl == m.p.ctl && k.p.backends == m.p.backends[i := m.p.backends[i].(worker := P.Died)]
    ensures k.s.task.pc.Ended? && k.s.task.client == if cleared then None else m.s.task.client
  {
    hide P.IsRun, P.Exec, MovesOf, Lets;
    var acts := [P.WorkerCancel(i), P.WorkerDie(i)];
    assert AsActions(i, [IsCancelled, Dies]) == acts by { TwoActions(i); }
    P.RunLast(m.p, acts);
    assert acts[..1] == [P.WorkerCancel(i)];
    P.RunLast(m.p, acts[..1]);
    P.NoSteps(m.p);
    assert [P.WorkerCancel(i)][..0] == [];
  }

  lemma TwoActions(i: nat)
    ensures AsActions(i, [IsCancelled, Dies]) == [P.WorkerCancel(i), P.WorkerDie(i)]
  {
    assert [IsCancelled, Dies][1..] == [Dies] && [Dies][1..] == [];
    assert AsActions(i, [Dies]) == [P.WorkerDie(i)];
  }

  // ----- and both happen -----

  ghost predicate LeadsBy(i: nat, from: Joint, xs: seq<JointAction>, js: seq<Joint>, to: Joint) {
    JointRun(i, xs, js) && js[0] == from && js[|xs|] == to && forall k | 0 <= k < |xs| :: !IsDisconnect(xs[k])
  }

  /** Some joint run leads from `from` to `to` without any `disconnect()` that returns or raises. */
  ghost predicate Leads(i: nat, from: Joint, to: Joint) {
    exists xs: seq<JointAction>, js: seq<Joint> :: LeadsBy(i, from, xs, js, to)
  }

  lemma LeadsNowhere(i: nat, j: Joint)
    ensures Leads(i, j, j)
  {
    assert LeadsBy(i, j, [], [j], j);
  }

  lemma LeadsOn(i: nat, from: Joint, j: Joint, x: JointAction, k: Joint)
    requires Leads(i, from, j) && JointStep(j, i, x, k) && !IsDisconnect(x)
    ensures Leads(i, from, k)
  {
    hide JointStep;
    var xs: seq<JointAction>, js: seq<Joint> :| LeadsBy(i, from, xs, js, j);
    var ys, ks := xs + [x], js + [k];
    forall n | 0 <= n < |ys| ensures JointStep(ks[n], i, ys[n], ks[n + 1]) {
      if n < |xs| {
        assert JointStep(js[n], i, xs[n], js[n + 1]);
      }
    }
    assert LeadsBy(i, from, ys, ks, k);
  }

  /** A handler with one broker backend, any others, and nothing to log. */
  function Quietly(c: P.Control, cycle: nat, b: P.Backend, ps: seq<P.Backend>): P.State {
    P.State(c, P.Ingress(cycle, 1, [], false, 0, [], [], []), P.Empty, [], [b] + ps)
  }

  function Running(host: P.Host, accept: bool, bridge: P.Bridge): P.Control {
    P.Control(host, false, accept, true, true, Some(1), Some(1), bridge, [])
  }

  function Lone(w: P.WorkerTask, d: P.Drain): P.Backend {
    P.FreshBackend("_redis", None, 1, []).(worker := w, drain := d)
  }

  /** No other backend, or one other. */
  function Peers(twin: bool, w: P.WorkerTask, d: P.Drain): seq<P.Backend> {
    if twin then [P.FreshBackend("_mqtt", None, 1, []).(worker := w, drain := d)] else []
  }

  function Idling(c: P.Control, cycle: nat, w: P.WorkerTask, d: P.Drain, ps: seq<P.Backend>, s: State): Joint {
    Joint(Quietly(c, cycle, Lone(w, d), ps), s)
  }

  /** A statement of the host that touches only its attributes. */
  lemma HostGoesOn(c: P.Control, cycle: nat, w: P.WorkerTask, d: P.Drain, ps: seq<P.Backend>, s: State)
    requires ControlOnly(c.host) && Counted(s.past) && P.HostReady(Quietly(c, cycle, Lone(w, d), ps))
    ensures JointStep(Idling(c, cycle, w, d, ps, s), 0, Other(P.HostStep),
                      Idling(P.ControlStep(c, cycle), cycle, w, d, ps,
                             if c.host.StopRunning? then s.(task := s.task.(running := false)) else s))
  {
    ControlHostStep(Quietly(c, cycle, Lone(w, d), ps));
    hide P.HostReady, P.HostStepped, P.ControlStep;
  }

  lemma MapBoth(b: P.Backend, ps: seq<P.Backend>, f: P.Backend -> P.Backend)
    ensures P.MapBackends([b] + ps, f) == [f(b)] + P.MapBackends(ps, f)
  {
  }

  // The states along the way: the handler's attributes, then the worker.

  const UNSTARTED := P.Control(P.Idle, false, false, false, false, None, None, P.NoBridge, [])
  const WITH_LOOP := P.Control(P.StartIngress, false, false, false, true, None, None, P.NoBridge, [])
  const WITH_INGRESS := P.Control(P.StartEvent, false, false, false, true, Some(1), None, P.NoBridge, [])
  const WITH_EVENT := P.Control(P.StartBridge, false, false, false, true, Some(1), Some(1), P.NoBridge, [])
  const WITH_BRIDGE := P.Control(P.StartAccept, false, false, false, true, Some(1), Some(1), P.Waiting, [])
  const ACCEPTING := P.Control(P.StartRunning, false, true, false, true, Some(1), Some(1), P.Waiting, [])

  function Stopped(host: P.Host): P.Control {
    P.Control(host, false, false, false, true, Some(1), Some(1), P.Dead, [])
  }

  function Fresh(twin: bool, c: P.Control, cycle: nat): Joint {
    Idling(c, cycle, P.NoTask, P.NotDraining, Peers(twin, P.NoTask, P.NotDraining), Initial(true))
  }

  /** `e` is the drain of the other backend, if there is one. */
  function Working(twin: bool, c: P.Control, d: P.Drain, e: P.Drain, s: State): Joint {
    Idling(c, 1, P.Alive, d, Peers(twin, P.Alive, e), s)
  }

  function Started(): State {
    Initial(true).(task := Initial(true).task.(pc := LoopHead, running := true))
  }

  function Dialling(): State {
    Started().(task := Started().task.(pc := Connecting), past := Started().past.(connectCalls := 1))
  }

  function ToldToStop(): State {
    ConnectedIdle().(task := ConnectedIdle().task.(running := false))
  }

  function CutOff(): State {
    var s := ToldToStop();
    s.(task := s.task.(pc := FinalDisconnect, cancelled := true), past := s.past.(attempted := [1]))
  }

  lemma StartsCalling(twin: bool)
    ensures JointStep(Fresh(twin, UNSTARTED, 0), 0, Other(P.StartCall), Fresh(twin, UNSTARTED.(host := P.StartLoop), 0))
  {
  }

  lemma MakesIngress(twin: bool)
    ensures JointStep(Fresh(twin, WITH_LOOP, 0), 0, Other(P.HostStep), Fresh(twin, WITH_INGRESS, 1))
  {
    var b, ps := Lone(P.NoTask, P.NotDraining), Peers(twin, P.NoTask, P.NotDraining);
    MapBoth(b, ps, P.ForgetCycle);
    assert P.MapBackends(ps, P.ForgetCycle) == ps;
  }

  lemma CreatesWorker(twin: bool)
    ensures JointStep(Fresh(twin, Running(P.StartWorkers, true, P.Waiting), 1), 0, Other(P.HostStep),
                      Working(twin, Running(P.Idle, true, P.Waiting), P.NotDraining, P.NotDraining, Started()))
  {
    var b, ps := Lone(P.NoTask, P.NotDraining), Peers(twin, P.NoTask, P.NotDraining);
    MapBoth(b, ps, P.StartWorker);
    assert P.MapBackends(ps, P.StartWorker) == Peers(twin, P.Alive, P.NotDraining);
  }

  lemma WorkerConnects(twin: bool)
    ensures var c, d := Running(P.Idle, true, P.Waiting), P.NotDraining;
      && JointStep(Working(twin, c, d, d, Started()), 0, Own(LoopTest), Working(twin, c, d, d, Dialling()))
      && JointStep(Working(twin, c, d, d, Dialling()), 0, Own(ConnectOk), Working(twin, c, d, d, ConnectedIdle()))
  {
    hide P.IsRun, P.Exec;
    P.NoSteps(Working(twin, Running(P.Idle, true, P.Waiting), P.NotDraining, P.NotDraining, Started()).p);
  }

  lemma StopsCalling(twin: bool)
    ensures var d := P.NotDraining;
      JointStep(Working(twin, Running(P.Idle, true, P.Waiting), d, d, ConnectedIdle()), 0, Other(P.StopCall),
                Working(twin, Running(P.StopAccept, true, P.Waiting), d, d, ConnectedIdle()))
  {
  }

  lemma BridgeDies(twin: bool)
    ensures var d := P.NotDraining;
      JointStep(Working(twin, Running(P.StopAwaitBridge, false, P.CancelRequested), d, d, ConnectedIdle()), 0, Other(P.BridgeDie),
                Working(twin, Running(P.StopAwaitBridge, false, P.Dead), d, d, ConnectedIdle()))
  {
  }

  lemma FlushEnds(twin: bool)
    ensures var d := P.NotDraining;
      JointStep(Working(twin, Running(P.StopFlush, false, P.Dead), d, d, ConnectedIdle()), 0, Other(P.HostStep),
                Working(twin, Running(P.StopDrain, false, P.Dead), P.Joining, P.Joining, ConnectedIdle()))
  {
    var b, ps := Lone(P.Alive, P.NotDraining), Peers(twin, P.Alive, P.NotDraining);
    MapBoth(b, ps, P.StartDrain);
    assert P.MapBackends(ps, P.StartDrain) == Peers(twin, P.Alive, P.Joining);
  }

  lemma DrainTimesOut(twin: bool)
    ensures JointStep(Working(twin, Running(P.StopDrain, false, P.Dead), P.Joining, P.Joining, ConnectedIdle()), 0,
                      Other(P.DrainReturn(0, TIMEOUT)),
                      Working(twin, Running(P.StopDrain, false, P.Dead), P.Drained(TIMEOUT), P.Joining, ConnectedIdle()))
  {
    var b, ps := Lone(P.Alive, P.Joining), Peers(twin, P.Alive, P.Joining);
    assert ([b] + ps)[0 := b.(drain := P.Drained(TIMEOUT))] == [b.(drain := P.Drained(TIMEOUT))] + ps;
  }

  lemma PeerTimesOut()
    ensures JointStep(Working(true, Running(P.StopDrain, false, P.Dead), P.Drained(TIMEOUT), P.Joining, ConnectedIdle()), 0,
                      Other(P.DrainReturn(1, TIMEOUT)),
                      Working(true, Running(P.StopDrain, false, P.Dead), P.Drained(TIMEOUT), P.Drained(TIMEOUT), ConnectedIdle()))
  {
    var b, ps := Lone(P.Alive, P.Drained(TIMEOUT)), Peers(true, P.Alive, P.Joining);
    assert ([b] + ps)[1 := ps[0].(drain := P.Drained(TIMEOUT))] == [b] + [ps[0].(drain := P.Drained(TIMEOUT))];
  }

  lemma NothingToReport(twin: bool, d: P.Drain)
    ensures JointStep(Working(twin, Running(P.StopReport(0, 0), false, P.Dead), d, d, ConnectedIdle()), 0, Other(P.HostStep),
                      Working(twin, Running(P.StopRunning, false, P.Dead), d, d, ConnectedIdle()))
  {
  }

  lemma PipelineCuts(twin: bool, d: P.Drain)
    ensures var ps := Peers(twin, P.Alive, d);
      var p := Quietly(Stopped(P.StopGather), 1, Lone(P.Alive, d), ps);
      P.IsRun(p, [P.WorkerCancel(0)]) && Lets(p, P.Alive, [IsCancelled])
      && P.Exec(p, [P.WorkerCancel(0)]) == Quietly(Stopped(P.StopGather), 1, Lone(P.Cancelling, d), ps)
  {
    var ps := Peers(twin, P.Alive, d);
    var p := Quietly(Stopped(P.StopGather), 1, Lone(P.Alive, d), ps);
    hide P.IsRun, P.Exec;
    P.NoSteps(p);
    P.RunSnoc(p, [], P.WorkerCancel(0));
    assert [] + [P.WorkerCancel(0)] == [P.WorkerCancel(0)];
    assert ([Lone(P.Alive, d)] + ps)[0 := Lone(P.Cancelling, d)] == [Lone(P.Cancelling, d)] + ps;
  }

  lemma BrokerCuts()
    ensures Enabled(ToldToStop(), Cancel(true)) && Apply(ToldToStop(), Cancel(true)) == CutOff()
    ensures MovesOf(ToldToStop(), Cancel(true)) == [IsCancelled] && AsActions(0, [IsCancelled]) == [P.WorkerCancel(0)]
    ensures Phase(ToldToStop().task) == P.Alive
  {
    assert CancelMoves(None, false) == [IsCancelled];
  }

  /** The gather's timeout cancels this worker first. */
  function Cut(twin: bool, v: P.WorkerTask): Joint {
    Idling(Stopped(P.StopGather), 1, P.Cancelling, P.Drained(TIMEOUT), Peers(twin, v, P.Drained(TIMEOUT)), CutOff())
  }

  lemma WorkerCut(twin: bool)
    ensures var d := P.Drained(TIMEOUT);
      JointStep(Working(twin, Stopped(P.StopGather), d, d, ToldToStop()), 0, Own(Cancel(true)), Cut(twin, P.Alive))
  {
    hide P.IsRun, P.Exec, Apply, Enabled, MovesOf, AsActions, Lets, ToldToStop, CutOff;
    PipelineCuts(twin, P.Drained(TIMEOUT));
    BrokerCuts();
  }

  /** The statements of start before the ingress exists. */
  lemma Begins(twin: bool)
    ensures Leads(0, Fresh(twin, UNSTARTED, 0), Fresh(twin, WITH_INGRESS, 1))
  {
    var j, ps := Fresh(twin, UNSTARTED, 0), Peers(twin, P.NoTask, P.NotDraining);
    StartsCalling(twin);
    HostGoesOn(UNSTARTED.(host := P.StartLoop), 0, P.NoTask, P.NotDraining, ps, Initial(true));
    MakesIngress(twin);
    hide Leads, JointStep, Peers;
    LeadsNowhere(0, j);
    LeadsOn(0, j, j, Other(P.StartCall), Fresh(twin, UNSTARTED.(host := P.StartLoop), 0));
    LeadsOn(0, j, Fresh(twin, UNSTARTED.(host := P.StartLoop), 0), Other(P.HostStep), Fresh(twin, WITH_LOOP, 0));
    LeadsOn(0, j, Fresh(twin, WITH_LOOP, 0), Other(P.HostStep), Fresh(twin, WITH_INGRESS, 1));
  }

  lemma HostLeads(from: Joint, c: P.Control, cycle: nat, w: P.WorkerTask, d: P.Drain, ps: seq<P.Backend>, s: State, to: P.Control)
    requires Leads(0, from, Idling(c, cycle, w, d, ps, s)) && to == P.ControlStep(c, cycle) && !c.host.StopRunning?
    requires ControlOnly(c.host) && Counted(s.past) && P.HostReady(Quietly(c, cycle, Lone(w, d), ps))
    ensures Leads(0, from, Idling(to, cycle, w, d, ps, s))
  {
    HostGoesOn(c, cycle, w, d, ps, s);
    hide Leads, JointStep, P.ControlStep, P.HostReady;
    LeadsOn(0, from, Idling(c, cycle, w, d, ps, s), Other(P.HostStep), Idling(to, cycle, w, d, ps, s));
  }

  /** A statement of start behind the ingress. */
  lemma StartLeads(twin: bool, c: P.Control, to: P.Control)
    requires Leads(0, Fresh(twin, UNSTARTED, 0), Fresh(twin, c, 1)) && to == P.ControlStep(c, 1)
    requires c.host.StartEvent? || c.host.StartBridge? || c.host.StartAccept? || c.host.StartRunning?
    ensures Leads(0, Fresh(twin, UNSTARTED, 0), Fresh(twin, to, 1))
  {
    hide Leads, P.ControlStep, Peers;
    HostLeads(Fresh(twin, UNSTARTED, 0), c, 1, P.NoTask, P.NotDraining, Peers(twin, P.NoTask, P.NotDraining), Initial(true), to);
  }

  lemma Opens(twin: bool)
    ensures Leads(0, Fresh(twin, UNSTARTED, 0), Fresh(twin, Running(P.StartWorkers, true, P.Waiting), 1))
  {
    hide Leads, Fresh;
    Begins(twin);
    StartLeads(twin, WITH_INGRESS, WITH_EVENT);
    StartLeads(twin, WITH_EVENT, WITH_BRIDGE);
    StartLeads(twin, WITH_BRIDGE, ACCEPTING);
    StartLeads(twin, ACCEPTING, Running(P.StartWorkers, true, P.Waiting));
  }

  lemma Works(twin: bool)
    ensures var d := P.NotDraining;
      Leads(0, Fresh(twin, UNSTARTED, 0), Working(twin, Running(P.StopAccept, true, P.Waiting), d, d, ConnectedIdle()))
  {
    var j, c, d := Fresh(twin, UNSTARTED, 0), Running(P.Idle, true, P.Waiting), P.NotDraining;
    Opens(twin);
    CreatesWorker(twin);
    WorkerConnects(twin);
    StopsCalling(twin);
    hide Leads, JointStep, Peers;
    LeadsOn(0, j, Fresh(twin, Running(P.StartWorkers, true, P.Waiting), 1), Other(P.HostStep), Working(twin, c, d, d, Started()));
    LeadsOn(0, j, Working(twin, c, d, d, Started()), Own(LoopTest), Working(twin, c, d, d, Dialling()));
    LeadsOn(0, j, Working(twin, c, d, d, Dialling()), Own(ConnectOk), Working(twin, c, d, d, ConnectedIdle()));
    LeadsOn(0, j, Working(twin, c, d, d, ConnectedIdle()), Other(P.StopCall),
            Working(twin, Running(P.StopAccept, true, P.Waiting), d, d, ConnectedIdle()));
  }

  /** A statement of stop that touches only the handler's attributes. */
  lemma StopLeads(twin: bool, c: P.Control, d: P.Drain, to: P.Control)
    requires Leads(0, Fresh(twin, UNSTARTED, 0), Working(twin, c, d, d, ConnectedIdle())) && to == P.ControlStep(c, 1)
    requires c.host.StopAccept? || c.host.StopCancelBridge? || (c.host.StopAwaitBridge? && c.bridge.Dead?)
          || (c.host.StopDrain? && d.Drained?)
    ensures Leads(0, Fresh(twin, UNSTARTED, 0), Working(twin, to, d, d, ConnectedIdle()))
  {
    assert P.HostReady(Quietly(c, 1, Lone(P.Alive, d), Peers(twin, P.Alive, d)));
    hide Leads, P.ControlStep, Peers, P.HostReady;
    HostLeads(Fresh(twin, UNSTARTED, 0), c, 1, P.Alive, d, Peers(twin, P.Alive, d), ConnectedIdle(), to);
  }

  lemma ReachesFlush(twin: bool)
    ensures var d := P.NotDraining;
      Leads(0, Fresh(twin, UNSTARTED, 0), Working(twin, Running(P.StopFlush, false, P.Dead), d, d, ConnectedIdle()))
  {
    var d := P.NotDraining;
    BridgeDies(twin);
    Works(twin);
    hide Leads, JointStep, Peers, Working, Fresh;
    StopLeads(twin, Running(P.StopAccept, true, P.Waiting), d, Running(P.StopCancelBridge, false, P.Waiting));
    StopLeads(twin, Running(P.StopCancelBridge, false, P.Waiting), d, Running(P.StopAwaitBridge, false, P.CancelRequested));
    LeadsOn(0, Fresh(twin, UNSTARTED, 0), Working(twin, Running(P.StopAwaitBridge, false, P.CancelRequested), d, d, ConnectedIdle()),
            Other(P.BridgeDie), Working(twin, Running(P.StopAwaitBridge, false, P.Dead), d, d, ConnectedIdle()));
    StopLeads(twin, Running(P.StopAwaitBridge, false, P.Dead), d, Running(P.StopFlush, false, P.Dead));
  }

  lemma DrainsTimeOut(twin: bool)
    ensures var d := P.Drained(TIMEOUT);
      Leads(0, Fresh(twin, UNSTARTED, 0), Working(twin, Running(P.StopDrain, false, P.Dead), d, d, ConnectedIdle()))
  {
    var j, c, d, s := Fresh(twin, UNSTARTED, 0), Running(P.StopDrain, false, P.Dead), P.Drained(TIMEOUT), ConnectedIdle();
    ReachesFlush(twin);
    FlushEnds(twin);
    DrainTimesOut(twin);
    assert !twin ==> Working(twin, c, d, P.Joining, s) == Working(twin, c, d, d, s);
    if twin {
      PeerTimesOut();
    }
    hide Leads, JointStep, Peers, Working, Fresh;
    LeadsOn(0, j, Working(twin, Running(P.StopFlush, false, P.Dead), P.NotDraining, P.NotDraining, s), Other(P.HostStep),
            Working(twin, c, P.Joining, P.Joining, s));
    LeadsOn(0, j, Working(twin, c, P.Joining, P.Joining, s), Other(P.DrainReturn(0, TIMEOUT)), Working(twin, c, d, P.Joining, s));
    if twin {
      LeadsOn(0, j, Working(twin, c, d, P.Joining, s), Other(P.DrainReturn(1, TIMEOUT)), Working(twin, c, d, d, s));
    }
  }

  lemma StopsRunning(twin: bool, d: P.Drain)
    ensures JointStep(Working(twin, Running(P.StopRunning, false, P.Dead), d, d, ConnectedIdle()), 0, Other(P.HostStep),
                      Working(twin, Stopped(P.StopGather), d, d, ToldToStop()))
  {
    HostGoesOn(Running(P.StopRunning, false, P.Dead), 1, P.Alive, d, Peers(twin, P.Alive, d), ConnectedIdle());
    hide JointStep, Peers;
  }

  lemma ReachesReport(twin: bool)
    ensures var d := P.Drained(TIMEOUT);
      Leads(0, Fresh(twin, UNSTARTED, 0), Working(twin, Running(P.StopReport(0, 0), false, P.Dead), d, d, ConnectedIdle()))
  {
    hide Leads, JointStep, Peers, Working, Fresh;
    DrainsTimeOut(twin);
    StopLeads(twin, Running(P.StopDrain, false, P.Dead), P.Drained(TIMEOUT), Running(P.StopReport(0, 0), false, P.Dead));
  }

  /** The gather's timeout cancels the worker, which then awaits its last `disconnect()`. */
  lemma IsCut(twin: bool)
    ensures Leads(0, Fresh(twin, UNSTARTED, 0), Cut(twin, P.Alive))
  {
    hide Leads, JointStep, Peers, Working, Fresh, Cut, Running, Stopped, ToldToStop, ConnectedIdle;
    var j, d, s := Fresh(twin, UNSTARTED, 0), P.Drained(TIMEOUT), ConnectedIdle();
    ReachesReport(twin);
    NothingToReport(twin, d);
    StopsRunning(twin, d);
    WorkerCut(twin);
    LeadsOn(0, j, Working(twin, Running(P.StopReport(0, 0), false, P.Dead), d, d, s), Other(P.HostStep),
            Working(twin, Running(P.StopRunning, false, P.Dead), d, d, s));
    LeadsOn(0, j, Working(twin, Running(P.StopRunning, false, P.Dead), d, d, s), Other(P.HostStep),
            Working(twin, Stopped(P.StopGather), d, d, ToldToStop()));
    LeadsOn(0, j, Working(twin, Stopped(P.StopGather), d, d, ToldToStop()), Own(Cancel(true)), Cut(twin, P.Alive));
  }

  /**
   * A run that hangs: a broker handler is started, its worker connects, and it is stopped; the gather's timeout
   * cancels the worker, which awaits its last `disconnect()`.
   */
  lemma StopCanHang()
    ensures JointOk(Fresh(false, UNSTARTED, 0), 0)
    ensures Leads(0, Fresh(false, UNSTARTED, 0), Cut(false, P.Alive)) && Hanging(Cut(false, P.Alive), 0)
  {
    hide Leads, JointStep, JointOk;
    RegisteredIsFresh();
    IsCut(false);
    LeadsToSound(0, Fresh(false, UNSTARTED, 0), Cut(false, P.Alive));
  }

  lemma LeadsToSound(i: nat, from: Joint, to: Joint)
    requires Leads(i, from, to) && JointOk(from, i)
    ensures JointOk(to, i)
  {
    hide JointOk, JointStep;
    var xs: seq<JointAction>, js: seq<Joint> :| LeadsBy(i, from, xs, js, to);
    JointRunsStaySound(i, xs, js);
  }

  lemma RegisteredIsFresh()
    ensures JointOk(Fresh(false, UNSTARTED, 0), 0)
  {
    var p := P.Initial(1);
    hide P.IsRun, P.Exec;
    P.NoSteps(p);
    assert PT.Reachable(p);
    hide PT.Reachable;
    JointBegins(p, true, "_redis", None, 1);
    hide JointOk;
    assert Joint(P.Apply(p, P.Register("_redis", None, 1)), Initial(true)) == Fresh(false, UNSTARTED, 0);
  }

  lemma OneMoreRegisters()
    ensures JointStep(Fresh(false, UNSTARTED, 0), 0, Other(P.Register("_mqtt", None, 1)), Fresh(true, UNSTARTED, 0))
  {
    var b := Lone(P.NoTask, P.NotDraining);
    assert [b] + [] == [b];
  }

  lemma PeerIsCancelled()
    ensures JointStep(Cut(true, P.Alive), 0, Other(P.WorkerCancel(1)), Cut(true, P.Cancelling))
  {
    var d := P.Drained(TIMEOUT);
    var b, q := Lone(P.Cancelling, d), Peers(true, P.Alive, d)[0];
    assert ([b] + [q])[1 := q.(worker := P.Cancelling)] == [b] + [q.(worker := P.Cancelling)];
  }

  lemma PeerEnds()
    ensures JointStep(Cut(true, P.Cancelling), 0, Other(P.WorkerDie(1)), Cut(true, P.Died))
  {
    var d := P.Drained(TIMEOUT);
    var b, q := Lone(P.Cancelling, d), Peers(true, P.Cancelling, d)[0];
    assert ([b] + [q])[1 := q.(worker := P.Died)] == [b] + [q.(worker := P.Died)];
  }

  lemma PeerHasDied()
    ensures var j := Cut(true, P.Died);
      && j.p.ctl.host.StopGather? && InLastDisconnect(j.s) && P.SomeoneDied(j.p)
      && j.s.task.client == Some(1) && |j.p.backends| == 2 && j.p.backends[1].worker.Died?
  {
    assert Cut(true, P.Died).p.backends[1].worker.Died?;
  }

  /** With a second backend, whose worker ends when it is cancelled. */
  lemma PeerIsCut()
    ensures Leads(0, Fresh(true, UNSTARTED, 0), Cut(true, P.Died))
    ensures JointOk(Fresh(true, UNSTARTED, 0), 0) && JointOk(Cut(true, P.Died), 0)
  {
    hide Leads, JointStep, JointOk, Fresh, Cut;
    var j := Fresh(true, UNSTARTED, 0);
    RegisteredIsFresh();
    OneMoreRegisters();
    JointStepOk(Fresh(false, UNSTARTED, 0), 0, Other(P.Register("_mqtt", None, 1)), j);
    IsCut(true);
    PeerIsCancelled();
    PeerEnds();
    LeadsOn(0, j, Cut(true, P.Alive), Other(P.WorkerCancel(1)), Cut(true, P.Cancelling));
    LeadsOn(0, j, Cut(true, P.Cancelling), Other(P.WorkerDie(1)), Cut(true, P.Died));
    LeadsToSound(0, j, Cut(true, P.Died));
  }

  lemma GatheredGoesOn(j: Joint) returns (k: Joint)
    requires JointOk(j, 0) && j.p.ctl.host.StopRegather? && P.AllGathered(j.p)
    ensures JointStep(j, 0, Other(P.HostStep), k) && k.p.ctl.host == P.StopClearQueue(0) && k.s == j.s
  {
    hide JointOk;
    k := JointStepExists(j, 0, Other(P.HostStep));
  }

  /**
   * A run that does not hang although the `disconnect()` never returns: a handler with two backends, whose workers the
   * timeout cancels both.  The other one ends, stop cancels this one again, and goes on.
   */
  lemma StopCanPass() returns (k: Joint)
    ensures JointOk(Fresh(true, UNSTARTED, 0), 0) && Leads(0, Fresh(true, UNSTARTED, 0), k)
    ensures k.p.ctl.host == P.StopClearQueue(0) && k.s.task.pc.Ended? && k.s.task.client == Some(1)
  {
    hide Leads, JointStep, JointOk, Fresh, Cut;
    var j, cut := Fresh(true, UNSTARTED, 0), Cut(true, P.Died);
    PeerIsCut();
    PeerHasDied();
    var m, n := SecondCancelFrees(cut, 0, false);
    k := GatheredGoesOn(n);
    LeadsOn(0, j, cut, Other(P.Regather), m);
    LeadsOn(0, j, m, Own(Cancel(false)), n);
    LeadsOn(0, j, n, Other(P.HostStep), k);
  }
}
