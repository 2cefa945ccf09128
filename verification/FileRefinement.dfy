/**
 * The file or console worker in the place of a backend's worker: each step of its coroutine and of its executor is a run
 * of the pipeline's worker steps, and everything the pipeline does to its backend is a step its own machine allows.
 */
module FileRefinement {
  import opened Records
  import opened FileWorker
  import opened FileWorkerTheorems
  import opened WorkerView
  import P = Pipeline
  import PT = PipelineTheorems

  function Phase(t: Task): P.WorkerTask {
    if t.pc.NotStarted? then P.NoTask
    else if t.pc.Ended? then (if t.cancelled then P.Died else P.Finished)
    else if t.cancelled then P.Cancelling
    else P.Alive
  }

  predicate Counted(h: History) {
    h.cycleStart <= |h.acks|
  }

  /** What the pipeline machine sees of the worker. */
  function ViewOf(s: State): View
    requires Counted(s.past)
  {
    View(Phase(s.task), s.task.running, s.queue.items, s.queue.unfinished,
         if s.task.pc.AwaitingWrite? then Some(s.task.pc.record) else None, s.past.acks[s.past.cycleStart..])
  }

  /** The steps of the coroutine and of its executor, not of those who feed, start, stop or clear it. */
  predicate OfWorker(a: Action) {
    !a.Start? && !a.Put? && !a.ClearRunning? && !a.Discard?
  }

  function CutOutcome(pc: Pc): Option<P.Outcome> {
    if pc.AwaitingWrite? then Some(P.CutOff) else None
  }

  function MovesOf(s: State, a: Action): seq<Move> {
    if a.Cancel? then CancelMoves(CutOutcome(s.task.pc), s.task.pc.AwaitingClose?)
    else if a.GetRecord? then
      (if a.rendering.Text? then [Gets]
       else [Gets] + [Acknowledges(if a.rendering.NoFormatter? then P.Skipped else P.Reported)])
    else if a.ResumeWrite? then [Acknowledges(if s.exec.result == Some(true) then P.Delivered else P.Reported)]
    else if a.Shutdown? then (if s.task.cancelled then [Dies] else [Exits])
    else []
  }

  /** The step is seen as these moves. */
  ghost predicate SeenAs(s: State, t: State, ms: seq<Move>) {
    Counted(s.past) && Counted(t.past) && CanMoves(ViewOf(s), ms) && Moves(ViewOf(s), ms) == ViewOf(t)
  }

  lemma CancelSeen(s: State)
    requires Counted(s.past) && Enabled(s, Cancel) && ExitOk(s.task, s.queue)
    ensures SeenAs(s, CancelStep(s), MovesOf(s, Cancel))
  {
    hide CanMoves, Moves;
    var outcome := CutOutcome(s.task.pc);
    if outcome.Some? {
      AckedSince(s.past.acks, s.past.cycleStart, P.Ack(s.task.pc.record, outcome.value));
    }
    CancelMoved(ViewOf(s), outcome, s.task.pc.AwaitingClose?);
  }

  lemma GetSeen(s: State, rendering: Rendering)
    requires Counted(s.past) && Enabled(s, GetRecord(rendering)) && ExitOk(s.task, s.queue)
    ensures SeenAs(s, Dequeue(s, rendering), MovesOf(s, GetRecord(rendering)))
  {
    hide CanMoves, Moves;
    var v := ViewOf(s);
    if rendering.Text? {
      OneMove(v, Gets);
    } else {
      var outcome := if rendering.NoFormatter? then P.Skipped else P.Reported;
      AckedSince(s.past.acks, s.past.cycleStart, P.Ack(s.queue.items[0], outcome));
      OneMove(Moved(v, Gets), Acknowledges(outcome));
      FirstMove(v, Gets, [Acknowledges(outcome)]);
    }
  }

  lemma StepSeen(s: State, a: Action)
    requires Counted(s.past) && OfWorker(a) && !a.Cancel? && !a.GetRecord? && !OfThread(a) && Enabled(s, a)
    requires ExitOk(s.task, s.queue)
    ensures SeenAs(s, Apply(s, a), MovesOf(s, a))
  {
    hide CanMoves, Moves;
    var t, ms := Apply(s, a), MovesOf(s, a);
    if |t.past.acks| != |s.past.acks| {
      AckedSince(s.past.acks, s.past.cycleStart, t.past.acks[|s.past.acks|]);
    }
    if ms == [] {
      NoMoves(ViewOf(s));
    } else {
      OneMove(ViewOf(s), ms[0]);
    }
  }

  lemma ThreadSeen(s: State, a: Action)
    requires Counted(s.past) && OfThread(a) && Enabled(s, a)
    ensures SeenAs(s, Apply(s, a), [])
  {
    ThreadFrame(s, a);
    hide Apply;
    NoMoves(ViewOf(s));
  }

  lemma OwnStepSeen(s: State, a: Action)
    requires Inv(s) && OfWorker(a) && Enabled(s, a)
    ensures SeenAs(s, Apply(s, a), MovesOf(s, a))
  {
    hide SeenAs, ExecOk, OnceOk, DeliveredOk, SinkOk, ExitOk;
    if a.Cancel? {
      CancelSeen(s);
    } else if a.GetRecord? {
      GetSeen(s, a.rendering);
    } else if OfThread(a) {
      ThreadSeen(s, a);
    } else {
      StepSeen(s, a);
    }
  }

  /**
   * Refinement of one step.  In every pipeline state that shows this worker, a step of the coroutine or of the executor's
   * thread is a run of the pipeline's worker steps that ends in a state showing the worker after it.
   */
  lemma RefinesWorker(s: State, a: Action, p: P.State, i: nat)
    requires Reachable(s) && Counted(s.past) && Shows(p, i, ViewOf(s)) && OfWorker(a) && Enabled(s, a)
    requires Lets(p, Phase(s.task), MovesOf(s, a))
    ensures SeenAs(s, Apply(s, a), MovesOf(s, a)) && Takes(p, i, ViewOf(s), MovesOf(s, a))
  {
    hide SeenAs, Takes, Shows, MovesOf, Apply, Lets, Inv;
    ReachableInv(s);
    OwnStepSeen(s, a);
    SeenMoves(s, Apply(s, a), MovesOf(s, a));
    MovesTaken(p, i, ViewOf(s), MovesOf(s, a));
  }

  lemma SeenMoves(s: State, t: State, ms: seq<Move>)
    requires SeenAs(s, t, ms)
    ensures Counted(s.past) && Counted(t.past) && CanMoves(ViewOf(s), ms) && Moves(ViewOf(s), ms) == ViewOf(t)
  {
  }

  /**
   * A worker cancelled before awaits the close of its file when it is cancelled again, and that is its end.  The console
   * worker awaits nothing in its teardown, so nothing cuts that short.
   */
  lemma SecondCancelEnds(s: State)
    requires Reachable(s) && s.task.cancelled && Enabled(s, Cancel)
    ensures !s.sink.Stdout? && s.task.pc.AwaitingClose? && MovesOf(s, Cancel) == [IsCancelled, Dies]
    ensures var t := Apply(s, Cancel); t.task.pc.Ended? && t.past == s.past && t.queue == s.queue && t.disk == s.disk
  {
    ReachableInv(s);
    assert ExitOk(s.task, s.queue) && ExecOk(s.sink, s.task, s.exec);
    hide Reachable, Inv, ViewOf;
    assert CancelMoves(None, true) == [IsCancelled, Dies];
  }

  // ----- what the pipeline does to the worker -----

  function AsFeed(f: Feed): Action
    requires !f.Nothing?
  {
    match f
    case Puts(r) => Put(r)
    case Clears => ClearRunning
    case Discards => Discard
    case Starts => Start
  }

  function AfterFeed(s: State, f: Feed): State
    requires Counted(s.past) && CanFeed(ViewOf(s), f)
  {
    if f.Nothing? then s else Apply(s, AsFeed(f))
  }

  /** Whatever the pipeline does to its backend, the worker's machine allows and shows. */
  lemma FeedSeen(s: State, f: Feed)
    requires Counted(s.past) && CanFeed(ViewOf(s), f)
    ensures !f.Nothing? ==> Enabled(s, AsFeed(f))
    ensures var t := AfterFeed(s, f); Counted(t.past) && ViewOf(t) == Fed(ViewOf(s), f)
  {
    if f.Starts? {
      assert s.past.acks[|s.past.acks|..] == [];
    }
  }

  // ----- the two machines together -----

  datatype Joint = Joint(p: P.State, s: State)

  /** A step of the worker, or of anybody else in the pipeline. */
  datatype JointAction = Own(a: Action) | Other(b: P.Action)

  ghost predicate JointEnabled(j: Joint, i: nat, x: JointAction) {
    match x
    case Own(a) => OfWorker(a) && Enabled(j.s, a) && Lets(j.p, Phase(j.s.task), MovesOf(j.s, a))
    case Other(b) => NotOwn(i, b) && P.Enabled(j.p, b)
  }

  ghost predicate JointOk(j: Joint, i: nat) {
    PT.Reachable(j.p) && Reachable(j.s) && Counted(j.s.past) && Shows(j.p, i, ViewOf(j.s))
  }

  /** The pipeline follows the worker's moves; the worker is fed what the pipeline does to its backend. */
  ghost predicate JointStep(j: Joint, i: nat, x: JointAction, k: Joint) {
    JointEnabled(j, i, x) &&
    match x
    case Own(a) =>
      var acts := AsActions(i, MovesOf(j.s, a));
      k.s == Apply(j.s, a) && P.IsRun(j.p, acts) && k.p == P.Exec(j.p, acts)
    case Other(b) =>
      && i < |j.p.backends| && Counted(j.s.past) && CanFeed(ViewOf(j.s), FeedOf(j.p, b, i))
      && k.p == P.Apply(j.p, b) && k.s == AfterFeed(j.s, FeedOf(j.p, b, i))
  }

  /** The states of a joint run, one after each step. */
  ghost predicate JointRun(i: nat, xs: seq<JointAction>, js: seq<Joint>) {
    |js| == |xs| + 1 && forall k | 0 <= k < |xs| :: JointStep(js[k], i, xs[k], js[k + 1])
  }

  lemma OwnStepJoint(j: Joint, i: nat, a: Action) returns (k: Joint)
    requires JointOk(j, i) && JointEnabled(j, i, Own(a))
    ensures JointStep(j, i, Own(a), k) && JointOk(k, i)
  {
    hide Shows, PT.Reachable, Reachable, P.IsRun, P.Exec, Apply, Enabled, Lets, MovesOf;
    RefinesWorker(j.s, a, j.p, i);
    var acts := AsActions(i, MovesOf(j.s, a));
    PT.ReachableOnwards(j.p, acts);
    ReachableStep(j.s, a);
    k := Joint(P.Exec(j.p, acts), Apply(j.s, a));
  }

  lemma OtherStepJoint(j: Joint, i: nat, b: P.Action) returns (k: Joint)
    requires JointOk(j, i) && JointEnabled(j, i, Other(b))
    ensures JointStep(j, i, Other(b), k) && JointOk(k, i)
  {
    hide PT.Reachable, Reachable, P.Apply, P.Enabled, FeedOf, ShowsBackend, Apply, Enabled;
    OtherStepFeeds(j.p, b, i, ViewOf(j.s));
    var f := FeedOf(j.p, b, i);
    FeedSeen(j.s, f);
    P.NoSteps(j.p);
    P.RunSnoc(j.p, [], b);
    PT.ReachableOnwards(j.p, [] + [b]);
    if !f.Nothing? {
      ReachableStep(j.s, AsFeed(f));
    }
    k := Joint(P.Apply(j.p, b), AfterFeed(j.s, f));
  }

  /** Neither machine ever holds the other up: an enabled joint step can be taken, and keeps the two together. */
  lemma JointStepExists(j: Joint, i: nat, x: JointAction) returns (k: Joint)
    requires JointOk(j, i) && JointEnabled(j, i, x)
    ensures JointStep(j, i, x, k) && JointOk(k, i)
  {
    hide JointOk, JointEnabled, JointStep;
    if x.Own? {
      k := OwnStepJoint(j, i, x.a);
    } else {
      k := OtherStepJoint(j, i, x.b);
    }
  }

  lemma JointStepUnique(j: Joint, i: nat, x: JointAction, k: Joint, l: Joint)
    requires JointStep(j, i, x, k) && JointStep(j, i, x, l)
    ensures k == l
  {
    hide P.IsRun, P.Exec, Apply, Enabled, MovesOf, P.Apply, P.Enabled, FeedOf;
  }

  lemma JointStepOk(j: Joint, i: nat, x: JointAction, k: Joint)
    requires JointOk(j, i) && JointStep(j, i, x, k)
    ensures JointOk(k, i)
  {
    hide JointOk, JointStep;
    assert JointEnabled(j, i, x) by { StepEnabled(j, i, x, k); }
    var l := JointStepExists(j, i, x);
    JointStepUnique(j, i, x, k, l);
  }

  lemma StepEnabled(j: Joint, i: nat, x: JointAction, k: Joint)
    requires JointStep(j, i, x, k)
    ensures JointEnabled(j, i, x)
  {
    hide JointEnabled;
  }

  /**
   * Refinement over whole runs.  From a handler that is not running and a backend just registered with it, under every
   * schedule of emitters, host, other workers and this one, every state is a reachable state of the pipeline whose
   * backend shows a reachable state of this worker.  Every theorem about either holds of both together.
   */
  lemma {:induction false} JointRunsStaySound(i: nat, xs: seq<JointAction>, js: seq<Joint>)
    requires JointRun(i, xs, js) && JointOk(js[0], i)
    ensures forall k | 0 <= k < |js| :: JointOk(js[k], i)
    decreases |xs|
  {
    hide JointOk, JointStep;
    if xs == [] {
    } else {
      var n := |xs| - 1;
      JointRunsStaySound(i, xs[..n], js[..n + 1]);
      assert js[..n + 1][n] == js[n];
      JointStepOk(js[n], i, xs[n], js[n + 1]);
      forall k | 0 <= k < |js| ensures JointOk(js[k], i) {
        if k <= n {
          assert js[..n + 1][k] == js[k];
        }
      }
    }
  }

  lemma JointBegins(p: P.State, sink: Sink, name: string, displayName: Option<string>, maxsize: int)
    requires PT.Reachable(p) && !p.ctl.running && P.Enabled(p, P.Register(name, displayName, maxsize))
    ensures JointOk(Joint(P.Apply(p, P.Register(name, displayName, maxsize)), Initial(sink)), |p.backends|)
  {
    var a := P.Register(name, displayName, maxsize);
    RegisteredShows(p, name, displayName, maxsize);
    hide PT.Reachable, Shows, P.Apply, P.Enabled;
    P.NoSteps(p);
    P.RunSnoc(p, [], a);
    PT.ReachableOnwards(p, [] + [a]);
    NoSteps(Initial(sink));
    assert ViewOf(Initial(sink)) == View(P.NoTask, false, [], 0, None, []);
  }

  lemma ReachableStep(s: State, a: Action)
    requires Reachable(s) && Enabled(s, a)
    ensures Reachable(Apply(s, a))
  {
    hide IsRun, Exec, Enabled, Apply;
    var sink: Sink, acts: seq<Action> :| IsRun(Initial(sink), acts) && s == Exec(Initial(sink), acts);
    RunSnoc(Initial(sink), acts, a);
  }
}
