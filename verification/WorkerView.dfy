/**
 * What the pipeline machine sees of a backend's worker, the moves a worker makes on that view, and what the rest of the
 * pipeline does to it.  A concrete worker that only moves like this may stand in for the abstract one.
 */
module WorkerView {
  import opened Records
  import opened QueueBackend
  import opened Pipeline
  import opened PipelineInvariant
  import T = PipelineTheorems

  /** `acks` are those of the present start cycle. */
  datatype View = View(
    phase: WorkerTask,
    running: bool,
    queue: seq<LogRecord>,
    unfinished: int,
    hand: Option<LogRecord>,
    acks: seq<Ack>)

  // ----- moves of the worker -----

  datatype Move = Gets | Acknowledges(outcome: Outcome) | Exits | IsCancelled | Dies

  predicate CanMove(v: View, m: Move) {
    match m
    case Gets => v.phase.Alive? && v.hand == None && v.queue != []
    case Acknowledges(_) => (v.phase.Alive? || TearsDown(v.phase)) && v.hand.Some?
    case Exits => v.phase.Alive? && v.hand == None && !v.running && v.queue == []
    case IsCancelled => v.phase.Alive? || v.phase.Cancelling?
    case Dies => TearsDown(v.phase) && v.hand == None
  }

  function Moved(v: View, m: Move): View
    requires CanMove(v, m)
  {
    match m
    case Gets => v.(queue := v.queue[1..], hand := Some(v.queue[0]))
    case Acknowledges(outcome) =>
      v.(hand := None, unfinished := v.unfinished - 1, acks := v.acks + [Ack(v.hand.value, outcome)])
    case Exits => v.(phase := Finished)
    case IsCancelled => v.(phase := Cancelled(v.phase))
    case Dies => v.(phase := Died)
  }

  predicate CanMoves(v: View, ms: seq<Move>)
    decreases |ms|
  {
    ms == [] || (CanMove(v, ms[0]) && CanMoves(Moved(v, ms[0]), ms[1..]))
  }

  function Moves(v: View, ms: seq<Move>): View
    requires CanMoves(v, ms)
    decreases |ms|
  {
    if ms == [] then v else Moves(Moved(v, ms[0]), ms[1..])
  }

  /** The moves of a cancelled worker: it acknowledges what it holds, and ends unless its teardown awaits. */
  function CancelMoves(outcome: Option<Outcome>, ends: bool): seq<Move> {
    [IsCancelled] + ((if outcome.Some? then [Acknowledges(outcome.value)] else []) + (if ends then [Dies] else []))
  }

  function AfterCancel(v: View, outcome: Option<Outcome>, ends: bool): View
    requires (v.phase.Alive? || v.phase.Cancelling?) && (outcome.Some? <==> v.hand.Some?)
  {
    var acked :=
      if outcome.Some? then v.(hand := None, unfinished := v.unfinished - 1, acks := v.acks + [Ack(v.hand.value, outcome.value)])
      else v;
    acked.(phase := if ends then Died else Cancelled(v.phase))
  }

  lemma NoMoves(v: View)
    ensures CanMoves(v, []) && Moves(v, []) == v
  {
  }

  lemma OneMove(v: View, m: Move)
    requires CanMove(v, m)
    ensures CanMoves(v, [m]) && Moves(v, [m]) == Moved(v, m)
  {
    NoMoves(Moved(v, m));
    assert [m][1..] == [];
  }

  lemma FirstMove(v: View, m: Move, ms: seq<Move>)
    requires CanMove(v, m) && CanMoves(Moved(v, m), ms)
    ensures CanMoves(v, [m] + ms) && Moves(v, [m] + ms) == Moves(Moved(v, m), ms)
  {
    assert ([m] + ms)[1..] == ms;
  }

  lemma CancelMoved(v: View, outcome: Option<Outcome>, ends: bool)
    requires (v.phase.Alive? || v.phase.Cancelling?) && (outcome.Some? <==> v.hand.Some?)
    ensures CanMoves(v, CancelMoves(outcome, ends))
    ensures Moves(v, CancelMoves(outcome, ends)) == AfterCancel(v, outcome, ends)
  {
    hide CanMoves, Moves;
    var w := Moved(v, IsCancelled);
    var rest := if ends then [Dies] else [];
    if outcome.Some? {
      var x := Moved(w, Acknowledges(outcome.value));
      LastMoves(x, ends);
      FirstMove(w, Acknowledges(outcome.value), rest);
    } else {
      LastMoves(w, ends);
      assert [] + rest == rest;
    }
    FirstMove(v, IsCancelled, (if outcome.Some? then [Acknowledges(outcome.value)] else []) + rest);
  }

  lemma LastMoves(v: View, ends: bool)
    requires TearsDown(v.phase) && v.hand == None
    ensures var rest := if ends then [Dies] else [];
      CanMoves(v, rest) && Moves(v, rest) == v.(phase := if ends then Died else v.phase)
  {
    NoMoves(v);
    if ends {
      OneMove(v, Dies);
    }
  }

  /** The acknowledgements of the present worker grow with those of all workers. */
  lemma AckedSince(acks: seq<Ack>, from: nat, a: Ack)
    requires from <= |acks|
    ensures (acks + [a])[from..] == acks[from..] + [a]
  {
  }

  // ----- the view in a pipeline state -----

  /** A start has dropped the histories of the cycle before and not yet created the workers. */
  predicate Forgotten(h: Host) {
    h.StartEvent? || h.StartBridge? || h.StartAccept? || h.StartRunning? || h.StartWorkers?
  }

  /** `v` is what backend `i` of `p` shows.  The worker learns of its start with its task, after the running flag. */
  ghost predicate Shows(p: State, i: nat, v: View) {
    && i < |p.backends|
    && ShowsBackend(p.ctl.host, p.ctl.running, p.backends[i], v)
  }

  predicate ShowsBackend(h: Host, running: bool, b: Backend, v: View) {
    && b.queue == v.queue && b.unfinished == v.unfinished && b.hand == v.hand
    && v.running == (running && !h.StartWorkers?)
    && (if TaskEnded(v.phase) then TaskEnded(b.worker) else b.worker == v.phase)
    && (if Forgotten(h) then b.acks == [] && TaskEnded(v.phase) else b.acks == v.acks)
    && (v.phase.NoTask? ==> Quiet(h, running))
  }

  function WithView(b: Backend, v: View): Backend {
    b.(queue := v.queue, unfinished := v.unfinished, hand := v.hand, acks := v.acks, worker := v.phase)
  }

  function AsAction(i: nat, m: Move): Action {
    match m
    case Gets => WorkerGet(i)
    case Acknowledges(outcome) => WorkerAck(i, outcome)
    case Exits => WorkerExit(i)
    case IsCancelled => WorkerCancel(i)
    case Dies => WorkerDie(i)
  }

  function AsActions(i: nat, ms: seq<Move>): (acts: seq<Action>)
    ensures |acts| == |ms|
  {
    if ms == [] then [] else [AsAction(i, ms[0])] + AsActions(i, ms[1..])
  }

  /** The pipeline lets a worker whose task is at `w` make these moves now. */
  ghost predicate Lets(p: State, w: WorkerTask, ms: seq<Move>) {
    LoopFree(p) && (IsCancelled in ms ==> ms[0] == IsCancelled && IsCancelled !in ms[1..] && CanCancel(p.ctl.host, w))
  }

  lemma MoveTaken(p: State, i: nat, v: View, m: Move)
    requires Shows(p, i, v) && Lets(p, v.phase, [m]) && CanMove(v, m)
    ensures Enabled(p, AsAction(i, m))
    ensures Apply(p, AsAction(i, m)) == SetBackend(p, i, WithView(p.backends[i], Moved(v, m)))
    ensures Shows(Apply(p, AsAction(i, m)), i, Moved(v, m))
  {
    assert m in [m];
  }

  /** `p` can take the moves as steps of its own, and then shows the view moved on. */
  ghost predicate Takes(p: State, i: nat, v: View, ms: seq<Move>) {
    && CanMoves(v, ms) && IsRun(p, AsActions(i, ms))
    && Shows(Exec(p, AsActions(i, ms)), i, Moves(v, ms))
    && Exec(p, AsActions(i, ms)).ctl == p.ctl
  }

  lemma {:induction false} MovesTaken(p: State, i: nat, v: View, ms: seq<Move>)
    requires Shows(p, i, v) && Lets(p, v.phase, ms) && CanMoves(v, ms)
    ensures Takes(p, i, v, ms)
    decreases |ms|
  {
    hide Enabled, Apply, IsRun, Exec, LoopFree, Shows, CanMove, Moved;
    if ms == [] {
      NoSteps(p);
    } else {
      var a, w := AsAction(i, ms[0]), Moved(v, ms[0]);
      MoveTaken(p, i, v, ms[0]);
      var q := Apply(p, a);
      StillLets(p, i, WithView(p.backends[i], w), v.phase, w.phase, ms);
      MovesTaken(q, i, w, ms[1..]);
      RunCons(p, a, AsActions(i, ms[1..]));
    }
  }

  lemma StillLets(p: State, i: nat, b: Backend, w: WorkerTask, after: WorkerTask, ms: seq<Move>)
    requires Lets(p, w, ms) && ms != [] && i < |p.backends|
    ensures Lets(SetBackend(p, i, b), after, ms[1..]) && SetBackend(p, i, b).ctl == p.ctl && Lets(p, w, [ms[0]])
  {
  }

  // ----- what the others do to the view -----

  datatype Feed = Nothing | Puts(record: LogRecord) | Clears | Discards | Starts

  predicate CanFeed(v: View, f: Feed) {
    match f
    case Nothing => true
    case Puts(_) => v.running
    case Clears => true
    case Discards => TaskEnded(v.phase) && !v.phase.NoTask? && v.queue != []
    case Starts => TaskEnded(v.phase) && !v.running && v.queue == []
  }

  function Fed(v: View, f: Feed): View
    requires CanFeed(v, f)
  {
    match f
    case Nothing => v
    case Puts(r) => v.(queue := v.queue + [r], unfinished := v.unfinished + 1)
    case Clears => v.(running := false)
    case Discards => v.(queue := v.queue[1..], unfinished := v.unfinished - 1)
    case Starts => v.(phase := Alive, running := true, acks := [])
  }

  predicate WorkerAction(a: Action) {
    a.WorkerGet? || a.WorkerAck? || a.WorkerExit? || a.WorkerDie? || a.WorkerCancel?
  }

  /** A step of somebody other than the worker of backend `i`. */
  predicate NotOwn(i: nat, a: Action) {
    WorkerAction(a) ==> a.b != i
  }

  function HostFeed(p: State, i: nat): Feed
    requires HostReady(p) && i < |p.backends|
  {
    var h := p.ctl.host;
    if h.StartWorkers? then Starts
    else if h.StopRunning? then Clears
    else if h == StopClearQueue(i) && p.backends[i].queue != [] then Discards
    else if h.StopReport? && h.reporter < |p.ctl.reporters| && h.result < |p.backends| && p.ctl.reporters[h.reporter] == i
            && !QueueFull(p.backends[i]) then
      Puts(StatusRecord(DrainResult(p.backends[h.result])))
    else Nothing
  }

  function FeedOf(p: State, a: Action, i: nat): Feed
    requires Enabled(p, a) && i < |p.backends|
  {
    if a == MovePut(i) && !QueueFull(p.backends[i]) then Puts(p.hand.record)
    else if a.HostStep? then HostFeed(p, i)
    else Nothing
  }

  /** The step feeds the view and is seen as that. */
  ghost predicate Feeds(p: State, a: Action, i: nat, v: View)
    requires Enabled(p, a) && i < |p.backends|
  {
    CanFeed(v, FeedOf(p, a, i)) && Shows(Apply(p, a), i, Fed(v, FeedOf(p, a, i)))
  }

  lemma OtherTaskFeeds(p: State, a: Action, i: nat, v: View)
    requires Shows(p, i, v) && Enabled(p, a) && (a.DrainJoin? || a.DrainReturn? || (WorkerAction(a) && a.b != i))
    ensures Feeds(p, a, i, v)
  {
    hide EmitterStep, HostStepped, HostReady;
  }

  lemma MoveFeeds(p: State, b: nat, i: nat, v: View)
    requires Shows(p, i, v) && Enabled(p, MovePut(b))
    requires BridgeOk(p.ctl) && RunningOk(p.ctl) && InvHand(p.hand, p.ctl, p.ing.moved, |p.backends|)
    ensures Feeds(p, MovePut(b), i, v)
  {
    hide EmitterStep, HostStepped, HostReady;
  }

  lemma CallFeeds(p: State, a: Action, i: nat, v: View)
    requires a.StartCall? || a.StopCall? || a.Regather? || a.CloseCall? || a.Register? || a.RegisterReporter?
    requires Shows(p, i, v) && Enabled(p, a) && (a.StopCall? ==> !Quiet(p.ctl.host, p.ctl.running))
    ensures Feeds(p, a, i, v)
  {
    hide EmitterStep, HostStepped, HostReady;
  }

  lemma EmitterFeeds(p: State, a: Action, i: nat, v: View)
    requires a.EmitCall? || a.EmitStep? || a.EmitStaleFull? || a.WakeCallback? || a.BridgeWake? || a.MoveGet?
          || a.BridgeEmpty? || a.BridgeDie?
    requires Shows(p, i, v) && Enabled(p, a)
    ensures Feeds(p, a, i, v)
  {
    hide ReadStep, HostStepped, HostReady;
  }

  // ----- the host's statements -----

  ghost predicate HostFeeds(p: State, i: nat, v: View)
    requires HostReady(p) && i < |p.backends|
  {
    CanFeed(v, HostFeed(p, i)) && Shows(HostStepped(p), i, Fed(v, HostFeed(p, i)))
  }

  /** The host is at a statement that touches only the handler's attributes. */
  predicate ControlOnly(h: Host) {
    && !h.StartIngress? && !h.StartWorkers? && !h.StopFlush? && !Gathers(h)
    && !h.StopReport? && !h.StopClearQueue? && !h.StopClearIngress?
  }

  lemma ControlHostStep(p: State)
    requires ControlOnly(p.ctl.host) && HostReady(p)
    ensures HostStepped(p) == p.(ctl := ControlStep(p.ctl, p.ing.cycle))
  {
    hide ControlStep, HostReady;
  }

  lemma ControlShows(ctl: Control, cycle: nat, b: Backend, v: View)
    requires ControlOnly(ctl.host) && !ctl.host.Idle? && RunningOk(ctl) && ShowsBackend(ctl.host, ctl.running, b, v)
    ensures var c := ControlStep(ctl, cycle);
      ShowsBackend(c.host, c.running, b, if ctl.host.StopRunning? then v.(running := false) else v)
  {
  }

  lemma ControlFeeds(p: State, i: nat, v: View)
    requires ControlOnly(p.ctl.host)
    requires Shows(p, i, v) && HostReady(p) && RunningOk(p.ctl)
    ensures HostFeeds(p, i, v)
  {
    ControlHostStep(p);
    ControlShows(p.ctl, p.ing.cycle, p.backends[i], v);
    hide HostStepped, ControlStep, ShowsBackend;
  }

  lemma AllBackendsFeed(p: State, i: nat, v: View)
    requires p.ctl.host.StartIngress? || p.ctl.host.StartWorkers? || p.ctl.host.StopFlush? || Gathers(p.ctl.host)
    requires Shows(p, i, v) && HostReady(p) && RunningOk(p.ctl)
    requires WorkerOk(p.ctl.host, p.ctl.running, p.backends[i]) && CountOk(p.ctl.host, p.ctl.running, i, p.backends[i])
    ensures HostFeeds(p, i, v)
  {
  }

  lemma ReportFeeds(p: State, i: nat, v: View)
    requires p.ctl.host.StopReport? && Shows(p, i, v) && HostReady(p) && RunningOk(p.ctl)
    ensures HostFeeds(p, i, v)
  {
    hide StatusRecord, DrainResult;
  }

  lemma ClearingFeeds(p: State, i: nat, v: View)
    requires p.ctl.host.StopClearQueue? || p.ctl.host.StopClearIngress?
    requires Shows(p, i, v) && WorkerOk(p.ctl.host, p.ctl.running, p.backends[i])
    ensures HostFeeds(p, i, v)
  {
    hide ControlStep, DropItem, StatusRecord, DrainResult;
  }

  lemma HostStepFeeds(p: State, i: nat, v: View)
    requires Shows(p, i, v) && HostReady(p) && RunningOk(p.ctl)
    requires BackendOk(p.ctl.host, p.ctl.running, p.ing.moved, p.hand, i, p.backends[i])
    ensures HostFeeds(p, i, v)
  {
    assert i < |p.backends|;
    hide Shows, HostFeeds, HostReady, BackendOk, RunningOk;
    var h := p.ctl.host;
    if h.StartIngress? || h.StartWorkers? || h.StopFlush? || Gathers(h) {
      WorkerPart(p, i);
      AllBackendsFeed(p, i, v);
    } else if h.StopReport? {
      ReportFeeds(p, i, v);
    } else if h.StopClearQueue? || h.StopClearIngress? {
      WorkerPart(p, i);
      ClearingFeeds(p, i, v);
    } else {
      ControlFeeds(p, i, v);
    }
  }

  lemma WorkerPart(p: State, i: nat)
    requires i < |p.backends| && BackendOk(p.ctl.host, p.ctl.running, p.ing.moved, p.hand, i, p.backends[i])
    ensures WorkerOk(p.ctl.host, p.ctl.running, p.backends[i]) && CountOk(p.ctl.host, p.ctl.running, i, p.backends[i])
  {
  }

  lemma HostStepIsHost(p: State, a: Action, i: nat, v: View)
    requires a.HostStep? && Enabled(p, a) && i < |p.backends| && HostFeeds(p, i, v)
    ensures Feeds(p, a, i, v)
  {
    hide HostStepped, HostReady;
  }

  /** Everything that anybody else does shows to the worker as one of the feeds. */
  lemma OtherStepFeeds(p: State, a: Action, i: nat, v: View)
    requires T.Reachable(p) && Shows(p, i, v) && Enabled(p, a) && NotOwn(i, a)
    ensures Feeds(p, a, i, v)
  {
    assert i < |p.backends|;
    T.BackendInv(p, i);
    T.ReachableInv(p);
    hide T.Reachable, InvWake, InvEmitters, InvIngress, BackendOk, InvBackends, UniqueNames, Shows, Feeds;
    if WorkerAction(a) || a.DrainJoin? || a.DrainReturn? {
      OtherTaskFeeds(p, a, i, v);
    } else if a.MovePut? {
      MoveFeeds(p, a.b, i, v);
    } else if a.HostStep? {
      HostStepFeeds(p, i, v);
      HostStepIsHost(p, a, i, v);
    } else if a.StopCall? {
      StopMeansRunning(p);
      CallFeeds(p, a, i, v);
    } else if a.StartCall? || a.Regather? || a.CloseCall? || a.Register? || a.RegisterReporter? {
      CallFeeds(p, a, i, v);
    } else {
      EmitterFeeds(p, a, i, v);
    }
  }

  lemma StopMeansRunning(p: State)
    requires T.Reachable(p) && Enabled(p, StopCall)
    ensures !Quiet(p.ctl.host, p.ctl.running)
  {
    if Quiet(p.ctl.host, p.ctl.running) {
      T.StoppedIsFresh(p);
    }
  }

  /** In particular the pipeline puts into a queue only while the running flag is set. */
  lemma PutsOnlyWhileRunning(p: State, a: Action, i: nat, v: View)
    requires T.Reachable(p) && Shows(p, i, v) && Enabled(p, a) && NotOwn(i, a)
    requires i < |Apply(p, a).backends| && |p.backends[i].queue| < |Apply(p, a).backends[i].queue|
    ensures p.ctl.running
  {
    OtherStepFeeds(p, a, i, v);
    hide T.Reachable, Apply, Enabled, FeedOf;
  }

  /** A backend registered with a handler that is not running shows the view of a worker never started. */
  lemma RegisteredShows(p: State, name: string, displayName: Option<string>, maxsize: int)
    requires Enabled(p, Register(name, displayName, maxsize)) && !p.ctl.running
    ensures Shows(Apply(p, Register(name, displayName, maxsize)), |p.backends|, View(NoTask, false, [], 0, None, []))
  {
  }
}
