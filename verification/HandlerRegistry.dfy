/**
 * The three collections a backend is registered in (`async_logging_handler.py`): the dictionary of queues and the two
 * lists of worker factories and drain hooks, which the handler reads by position.
 */
module HandlerRegistry {
  import opened Records

  /** The hook passed in, or the default that joins the backend's own queue. */
  datatype Hook = Given(id: nat) | JoinOf(queue: nat)

  /** One successful call of `register_backend`. */
  datatype Registration = Registration(name: string, queue: nat, worker: nat, hook: Hook)

  /** A dictionary, in insertion order. */
  type Dict = seq<(string, nat)>

  predicate HasKey(d: Dict, key: string) {
    exists k | 0 <= k < |d| :: d[k].0 == key
  }

  /** `d[key] = value`: an existing key keeps its place. */
  function Assigned(d: Dict, key: string, value: nat): Dict {
    if d == [] then [(key, value)]
    else if d[0].0 == key then [(key, value)] + d[1..]
    else [d[0]] + Assigned(d[1..], key, value)
  }

  /** Assigning a new key appends; assigning an old one leaves the length, and two parallel appends behind. */
  lemma {:induction false} AssignedAppends(d: Dict, key: string, value: nat)
    ensures |Assigned(d, key, value)| == |d| + (if HasKey(d, key) then 0 else 1)
    ensures !HasKey(d, key) ==> Assigned(d, key, value) == d + [(key, value)]
  {
    if d != [] && d[0].0 != key {
      AssignedAppends(d[1..], key, value);
      if HasKey(d, key) {
        var k :| 0 <= k < |d| && d[k].0 == key;
        assert d[1..][k - 1].0 == key;
      } else {
        forall k | 0 <= k < |d[1..]| ensures d[1..][k].0 != key {
          assert d[1..][k] == d[k + 1];
        }
        assert d == [d[0]] + d[1..];
      }
    }
  }

  class Registry {
    var logQueues: Dict
    var workerFactories: seq<nat>
    var drainHooks: seq<Hook>
    ghost var registered: seq<Registration>

    /** The collections are one-to-one: position by position they hold the parts of the same registration. */
    ghost predicate Valid()
      reads this
    {
      && |logQueues| == |workerFactories| == |drainHooks| == |registered|
      && (forall k | 0 <= k < |registered| ::
            && logQueues[k] == (registered[k].name, registered[k].queue)
            && workerFactories[k] == registered[k].worker && drainHooks[k] == registered[k].hook)
      && (forall j, k | 0 <= j < k < |registered| :: registered[j].name != registered[k].name)
    }

    constructor ()
      ensures Valid() && registered == []
    {
      logQueues, workerFactories, drainHooks, registered := [], [], [], [];
    }

    /** `register_backend`: refused exactly for a name that is taken, and then nothing has changed. */
    method RegisterBackend(name: string, queue: nat, worker: nat, drain: Option<nat>) returns (r: Result<()>)
      requires Valid()
      modifies this
      ensures Valid()
      ensures r.Err? <==> exists k | 0 <= k < |old(registered)| :: old(registered)[k].name == name
      ensures registered == old(registered) +
        if r.Ok? then [Registration(name, queue, worker, if drain.Some? then Given(drain.value) else JoinOf(queue))] else []
    {
      if HasKey(logQueues, name) {
        var k :| 0 <= k < |logQueues| && logQueues[k].0 == name;
        assert registered[k].name == name;
        return Err("backend name is already registered");
      }
      forall k | 0 <= k < |registered| ensures registered[k].name != name {
        assert logQueues[k].0 != name;
      }
      AssignedAppends(logQueues, name, queue);
      logQueues := Assigned(logQueues, name, queue);
      workerFactories := workerFactories + [worker];
      var hook := if drain.Some? then Given(drain.value) else JoinOf(queue);
      drainHooks := drainHooks + [hook];
      registered := registered + [Registration(name, queue, worker, hook)];
      r := Ok(());
    }

    /** `start_logging`'s tasks: one per backend, in registration order. */
    method CreateTasks() returns (tasks: seq<nat>)
      requires Valid()
      ensures |tasks| == |registered| && forall k | 0 <= k < |tasks| :: tasks[k] == registered[k].worker
    {
      tasks := [];
      for k := 0 to |workerFactories|
        invariant |tasks| == k && forall j | 0 <= j < k :: tasks[j] == registered[j].worker
      {
        tasks := tasks + [workerFactories[k]];
      }
    }

    /** `gather` over the drain hooks: the k-th result comes from the hook of the k-th key of the dictionary. */
    method GatherDrains<R>(run: Hook -> R) returns (results: seq<R>)
      requires Valid()
      ensures |results| == |logQueues| == |registered|
      ensures forall k | 0 <= k < |results| :: results[k] == run(registered[k].hook) && logQueues[k].0 == registered[k].name
    {
      results := [];
      for k := 0 to |drainHooks|
        invariant |results| == k && forall j | 0 <= j < k :: results[j] == run(registered[j].hook)
      {
        results := results + [run(drainHooks[k])];
      }
    }
  }
}
