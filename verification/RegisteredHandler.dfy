/** The handler together with its registry: in whatever order they are called, their backends correspond one to one. */
module RegisteredHandlers {
  import opened Records
  import opened Pipeline
  import opened AsyncLogging
  import opened HandlerRegistry

  /** The k-th backend of the pipeline is the k-th one registered. */
  ghost predicate Mirrors(registered: seq<Registration>, backends: seq<Backend>) {
    |registered| == |backends| && forall k | 0 <= k < |backends| :: registered[k].name == backends[k].name
  }

  lemma TakenAlike(registered: seq<Registration>, s: State, name: string)
    requires Mirrors(registered, s.backends)
    ensures NameTaken(s, name) <==> exists k | 0 <= k < |registered| :: registered[k].name == name
  {
    if k :| 0 <= k < |registered| && registered[k].name == name {
      assert s.backends[k].name == name;
    }
  }

  lemma StillMirrors(registered: seq<Registration>, before: seq<Backend>, after: seq<Backend>)
    requires Mirrors(registered, before) && SameRegistration(before, after)
    ensures Mirrors(registered, after)
  {
  }

  class RegisteredHandler {
    const handler: AsyncLoggingHandler
    const registry: Registry

    ghost predicate Valid()
      reads this, handler, registry
    {
      handler.Valid() && registry.Valid() && Mirrors(registry.registered, handler.backends)
    }

    constructor (queueMaxsize: int)
      requires ValidateQueueMaxsize(queueMaxsize).Ok?
      ensures Valid() && handler.Snapshot() == Initial(queueMaxsize) && registry.registered == []
      ensures fresh(handler) && fresh(registry)
    {
      handler := new AsyncLoggingHandler(queueMaxsize);
      registry := new Registry();
    }

    /** `register_backend`: dictionary, lists and pipeline take the same decision. */
    method RegisterBackend(name: string, queue: nat, worker: nat, drain: Option<nat>, displayName: Option<string>, maxsize: int)
      returns (r: Result<()>)
      requires Valid() && handler.host.Idle? && LoopFree(handler.Snapshot())
      modifies handler, registry
      ensures Valid() && (r.Err? <==> NameTaken(old(handler.Snapshot()), name))
      ensures r.Err? ==> handler.Snapshot() == old(handler.Snapshot()) && registry.registered == old(registry.registered)
      ensures r.Ok? ==> |handler.backends| == |old(handler.backends)| + 1 && old(registry.registered) <= registry.registered
    {
      TakenAlike(registry.registered, handler.Snapshot(), name);
      r := registry.RegisterBackend(name, queue, worker, drain);
      var _ := handler.RegisterBackend(name, displayName, maxsize);
    }

    /** `start_logging`: every backend has the worker its own factory made. */
    method StartLogging(schedule: nat -> seq<Action>) returns (r: Result<()>, tasks: seq<nat>)
      requires Valid() && handler.host.Idle? && LoopFree(handler.Snapshot())
      modifies handler
      ensures Valid() && handler.host.Idle? && |tasks| == |handler.backends|
      ensures r.Ok? ==> forall k | 0 <= k < |tasks| ::
        && handler.backends[k].worker.Alive? && tasks[k] == registry.registered[k].worker
        && registry.logQueues[k] == (handler.backends[k].name, registry.registered[k].queue)
    {
      tasks := registry.CreateTasks();
      r := handler.StartLogging(schedule);
    }

    /** `stop_logging`, whether it comes to its end or not. */
    method StopLogging(schedule: nat -> seq<Action>, patience: nat) returns (returned: bool)
      requires Valid() && handler.host.Idle? && LoopFree(handler.Snapshot())
      modifies handler
      ensures Valid() && (returned ==> handler.host.Idle? && !handler.running)
    {
      returned := handler.StopLogging(schedule, patience);
      StillMirrors(registry.registered, old(handler.backends), handler.backends);
    }
  }
}
