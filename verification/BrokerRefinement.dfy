/**
 * The broker worker in the place of a backend's worker: each of its steps is a run of the pipeline's worker steps, and
 * everything the pipeline does to its backend is a step its own machine allows.  So the two machines run jointly.
 */
module BrokerRefinement {
  import opened Records
  import opened Broker
  import opened BrokerTheorems
  import opened WorkerView
  import opened Backoff
  import P = Pipeline
  import PT = PipelineTheorems

  function Phase(t: Task): P.WorkerTask {
    if t.pc.NotStarted? then P.NoTask
    else if t.pc.Ended? then (if t.cancelled then P.Died else P.Finished)
    else if t.cancelled then P.Cancelling
    else P.Alive
  }

  predicate Counted(h: History) {
    h.cycleStart <= |h.acks|
  }

  /** What the pipeline machine sees of the worker. */
  function ViewOf(s: State): View
    requires Counted(s.past)
  {
    View(Phase(s.task), s.task.running, s.queue.items, s.queue.unfinished,
         if s.task.pc.Sending? || s.task.pc.Disconnecting? then Some(s.task.pc.record) else None,
         s.past.acks[s.past.cycleStart..])
  }

  /** The steps taken by the worker itself, not by those who feed, start, stop or clear it. */
  predicate OfWorker(a: Action) {
    !a.Start? && !a.Put? && !a.ClearRunning? && !a.Discard?
  }

  /** How the pipeline machine sees the end of the record in hand when the worker is cancelled. */
  function CutOutcome(pc: Pc): Option<P.Outcome> {
    if pc.Sending? then Some(P.CutOff) else if pc.Disconnecting? then Some(P.Reported) else None
  }

  predicate Disconnects(a: Action) {
    a.DisconnectOk? || a.DisconnectRaise?
  }

  function MovesOf(s: State, a: Action): seq<Move> {
    if a.Cancel? then CancelMoves(CutOutcome(s.task.pc), s.task.pc.FinalDisconnect? || !s.owns)
    else if a.GetRecord? then [Gets]
    else if a.SendOk? then [Acknowledges(P.Delivered)]
    else if (a.SendRaise? && !s.owns) || (Disconnects(a) && s.task.pc.Disconnecting?) then [Acknowledges(P.Reported)]
    else if Disconnects(a) && s.task.cancelled then [Dies]
    else if Disconnects(a) then [Exits]
    else if a.LoopTest? && !s.owns && !s.task.running && s.queue.items == [] then [Exits]
    else []
  }

  /** The step is seen as these moves. */
  ghost predicate SeenAs(s: State, t: State, ms: seq<Move>) {
    Counted(s.past) && Counted(t.past) && CanMoves(ViewOf(s), ms) && Moves(ViewOf(s), ms) == ViewOf(t)
  }

  lemma CancelSeen(s: State, cleared: bool)
    requires Counted(s.past) && Enabled(s, Cancel(cleared))
    requires ExitOk(s.task, s.queue) && (s.owns || (!s.task.pc.Disconnecting? && !s.task.pc.FinalDisconnect?))
    ensures SeenAs(s, CancelStep(s, cleared), MovesOf(s, Cancel(cleared)))
  {
    hide CanMoves, Moves;
    var outcome := CutOutcome(s.task.pc);
    if outcome.Some? {
      AckedSince(s.past.acks, s.past.cycleStart, P.Ack(s.task.pc.record, outcome.value));
    }
    CancelMoved(ViewOf(s), outcome, s.task.pc.FinalDisconnect? || !s.owns);
  }

  lemma StepSeen(s: State, a: Action)
    requires Counted(s.past) && OfWorker(a) && !a.Cancel? && Enabled(s, a) && ExitOk(s.task, s.queue)
    ensures SeenAs(s, Apply(s, a), MovesOf(s, a))
  {
    hide NextDelay, CancelStep, CanMoves, Moves;
    var t, ms := Apply(s, a), MovesOf(s, a);
    if |t.past.acks| != |s.past.acks| {
      AckedSince(s.past.acks, s.past.cycleStart, t.past.acks[|s.past.acks|]);
    }
    if ms == [] {
      NoMoves(ViewOf(s));
    } else {
      OneMove(ViewOf(s), ms[0]);
    }
  }

  lemma OwnStepSeen(s: State, a: Action)
    requires Inv(s) && OfWorker(a) && Enabled(s, a)
    ensures SeenAs(s, Apply(s, a), MovesOf(s, a))
  {
    hide RecordsOk, BackoffOk, SeenAs, MovesOf;
    if a.Cancel? {
      CancelSeen(s, a.cleared);
    } else {
      StepSeen(s, a);
    }
  }

  /**
   * Refinement of one step.  In every pipeline state that shows this worker, its step is a run of the pipeline's worker
   * steps that ends in a state showing the worker after it.
   */
  lemma RefinesWorker(s: State, a: Action, p: P.State, i: nat)
    requires Reachable(s) && Counted(s.past) && Shows(p, i, ViewOf(s)) && OfWorker(a) && Enabled(s, a)
    requires Lets(p, Phase(s.task), MovesOf(s, a))
    ensures SeenAs(s, Apply(s, a), MovesOf(s, a)) && Takes(p, i, ViewOf(s), MovesOf(s, a))
  {
    hide SeenAs, Takes, Shows, MovesOf, Apply, Lets, Inv;
    ReachableInv(s);
    OwnStepSeen(s, a);
    SeenMoves(s, Apply(s, a), MovesOf(s, a));
    MovesTaken(p, i, ViewOf(s), MovesOf(s, a));
  }

  lemma SeenMoves(s: State, t: State, ms: seq<Move>)
    requires SeenAs(s, t, ms)
    ensures Counted(s.past) && Counted(t.past) && CanMoves(ViewOf(s), ms) && Moves(ViewOf(s), ms) == ViewOf(t)
  {
  }

  /** A worker cancelled before is in its final `disconnect()` when it is cancelled again, and that is its end. */
  lemma SecondCancelEnds(s: State, cleared: bool)
    requires Reachable(s) && s.task.cancelled && Enabled(s, Cancel(cleared))
    ensures s.owns && s.task.pc.FinalDisconnect? && MovesOf(s, Cancel(cleared)) == [IsCancelled, Dies]
    ensures var t := Apply(s, Cancel(cleared)); t.task.pc.Ended? && t.past == s.past && t.queue == s.queue
  {
    ReachableInv(s);
    hide Reachable, RecordsOk, CutOffsOk, BackoffOk, OwnedOk;
    assert CancelMoves(None, true) == [IsCancelled, Dies];
  }

  // ----- what the pipeline does to the worker -----

  function AsFeed(f: Feed): Action
    requires !f.Nothing?
  {
    match f
    case Puts(r) => Put(r)
    case Clears => ClearRunning
    case Discards => Discard
    case Starts => Start
  }

  function AfterFeed(s: State, f: Feed): State
    requires Counted(s.past) && CanFeed(ViewOf(s), f)
  {
    if f.Nothing? then s else Apply(s, AsFeed(f))
  }

  /** Whatever the pipeline does to its backend, the worker's machine allows and shows. */
  lemma FeedSeen(s: State, f: Feed)
    requires Counted(s.past) && CanFeed(ViewOf(s), f)
    ensures !f.Nothing? ==> Enabled(s, AsFeed(f))
    ensures var t := AfterFeed(s, f); Counted(t.past) && ViewOf(t) == Fed(ViewOf(s), f)
  {
    if f.Starts? {
      assert s.past.acks[|s.past.acks|..] == [];
    }
  }

  // ----- the two machines together -----

  datatype Joint = Joint(p: P.State, s: State)

  /** A step of the worker, or of anybody else in the pipeline. */
  datatype JointAction = Own(a: Action) | Other(b: P.Action)

  ghost predicate JointEnabled(j: Joint, i: nat, x: JointAction) {
    match x
    case Own(a) => OfWorker(a) && Enabled(j.s, a) && Lets(j.p, Phase(j.s.task), MovesOf(j.s, a))
    case Other(b) => NotOwn(i, b) && P.Enabled(j.p, b)
  }

  ghost predicate JointOk(j: Joint, i: nat) {
    PT.Reachable(j.p) && Reachable(j.s) && Counted(j.s.past) && Shows(j.p, i, ViewOf(j.s))
  }

  /** The pipeline follows the worker's moves; the worker is fed what the pipeline does to its backend. */
  ghost predicate JointStep(j: Joint, i: nat, x: JointAction, k: Joint) {
    JointEnabled(j, i, x) &&
    match x
    case Own(a) =>
      var acts := AsActions(i, MovesOf(j.s, a));
      k.s == Apply(j.s, a) && P.IsRun(j.p, acts) && k.p == P.Exec(j.p, acts)
    case Other(b) =>
      && i < |j.p.backends| && Counted(j.s.past) && CanFeed(ViewOf(j.s), FeedOf(j.p, b, i))
      && k.p == P.Apply(j.p, b) && k.s == AfterFeed(j.s, FeedOf(j.p, b, i))
  }

  /** The states of a joint run, one after each step. */
  ghost predicate JointRun(i: nat, xs: seq<JointAction>, js: seq<Joint>) {
    |js| == |xs| + 1 && forall k | 0 <= k < |xs| :: JointStep(js[k], i, xs[k], js[k + 1])
  }

  lemma OwnStepJoint(j: Joint, i: nat, a: Action) returns (k: Joint)
    requires JointOk(j, i) && JointEnabled(j, i, Own(a))
    ensures JointStep(j, i, Own(a), k) && JointOk(k, i)
  {
    hide Shows, PT.Reachable, Reachable, P.IsRun, P.Exec, Apply, Enabled, Lets, MovesOf;
    RefinesWorker(j.s, a, j.p, i);
    var acts := AsActions(i, MovesOf(j.s, a));
    PT.ReachableOnwards(j.p, acts);
    ReachableStep(j.s, a);
    k := Joint(P.Exec(j.p, acts), Apply(j.s, a));
  }

  lemma OtherStepJoint(j: Joint, i: nat, b: P.Action) returns (k: Joint)
    requires JointOk(j, i) && JointEnabled(j, i, Other(b))
    ensures JointStep(j, i, Other(b), k) && JointOk(k, i)
  {
    hide PT.Reachable, Reachable, P.Apply, P.Enabled, FeedOf, ShowsBackend, Apply, Enabled;
    OtherStepFeeds(j.p, b, i, ViewOf(j.s));
    var f := FeedOf(j.p, b, i);
    FeedSeen(j.s, f);
    P.NoSteps(j.p);
    P.RunSnoc(j.p, [], b);
    PT.ReachableOnwards(j.p, [] + [b]);
    if !f.Nothing? {
      ReachableStep(j.s, AsFeed(f));
    }
    k := Joint(P.Apply(j.p, b), AfterFeed(j.s, f));
  }

  /** Neither machine ever holds the other up: an enabled joint step can be taken, and keeps the two together. */
  lemma JointStepExists(j: Joint, i: nat, x: JointAction) returns (k: Joint)
    requires JointOk(j, i) && JointEnabled(j, i, x)
    ensures JointStep(j, i, x, k) && JointOk(k, i)
  {
    hide JointOk, JointEnabled, JointStep;
    if x.Own? {
      k := OwnStepJoint(j, i, x.a);
    } else {
      k := OtherStepJoint(j, i, x.b);
    }
  }

  lemma JointStepUnique(j: Joint, i: nat, x: JointAction, k: Joint, l: Joint)
    requires JointStep(j, i, x, k) && JointStep(j, i, x, l)
    ensures k == l
  {
    hide P.IsRun, P.Exec, Apply, Enabled, MovesOf, P.Apply, P.Enabled, FeedOf;
  }

  lemma JointStepOk(j: Joint, i: nat, x: JointAction, k: Joint)
    requires JointOk(j, i) && JointStep(j, i, x, k)
    ensures JointOk(k, i)
  {
    hide JointOk, JointStep;
    assert JointEnabled(j, i, x) by { StepEnabled(j, i, x, k); }
    var l := JointStepExists(j, i, x);
    JointStepUnique(j, i, x, k, l);
  }

  lemma StepEnabled(j: Joint, i: nat, x: JointAction, k: Joint)
    requires JointStep(j, i, x, k)
    ensures JointEnabled(j, i, x)
  {
    hide JointEnabled;
  }

  /**
   * Refinement over whole runs.  From a handler that is not running and a backend just registered with it, under every
   * schedule of emitters, host, other workers and this one, every state is a reachable state of the pipeline whose
   * backend shows a reachable state of this worker.  Every theorem about either holds of both together.
   */
  lemma {:induction false} JointRunsStaySound(i: nat, xs: seq<JointAction>, js: seq<Joint>)
    requires JointRun(i, xs, js) && JointOk(js[0], i)
    ensures forall k | 0 <= k < |js| :: JointOk(js[k], i)
    decreases |xs|
  {
    hide JointOk, JointStep;
    if xs == [] {
    } else {
      var n := |xs| - 1;
      JointRunsStaySound(i, xs[..n], js[..n + 1]);
      assert js[..n + 1][n] == js[n];
      JointStepOk(js[n], i, xs[n], js[n + 1]);
      forall k | 0 <= k < |js| ensures JointOk(js[k], i) {
        if k <= n {
          assert js[..n + 1][k] == js[k];
        }
      }
    }
  }

  lemma JointBegins(p: P.State, owns: bool, name: string, displayName: Option<string>, maxsize: int)
    requires PT.Reachable(p) && !p.ctl.running && P.Enabled(p, P.Register(name, displayName, maxsize))
    ensures JointOk(Joint(P.Apply(p, P.Register(name, displayName, maxsize)), Initial(owns)), |p.backends|)
  {
    var a := P.Register(name, displayName, maxsize);
    RegisteredShows(p, name, displayName, maxsize);
    hide PT.Reachable, Shows, P.Apply, P.Enabled;
    P.NoSteps(p);
    P.RunSnoc(p, [], a);
    PT.ReachableOnwards(p, [] + [a]);
    NoSteps(Initial(owns));
    assert ViewOf(Initial(owns)) == View(P.NoTask, false, [], 0, None, []);
  }

  lemma ReachableStep(s: State, a: Action)
    requires Reachable(s) && Enabled(s, a)
    ensures Reachable(Apply(s, a))
  {
    hide IsRun, Exec, Enabled, Apply;
    var owns: bool, acts: seq<Action> :| IsRun(Initial(owns), acts) && s == Exec(Initial(owns), acts);
    RunSnoc(Initial(owns), acts, a);
  }
}
