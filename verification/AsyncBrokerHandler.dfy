/**
 * The broker worker as the loop it is.  A script tells what each of its awaits returns and what others do
 * meanwhile; when it runs out the worker stays suspended.  `model` and `trace` tie every statement to the
 * step machine, so its theorems hold of the object.
 */
module AsyncBroker {
  import opened Records
  import opened Backoff
  import opened Broker
  import opened BrokerTheorems
  import P = Pipeline
  import I = PipelineInvariant

  /** How an await ends: with a result, with an exception (and the backoff drawn for it), or cut off. */
  datatype Wakeup = Returns | Raises(jitter: real) | IsCancelled(cleared: bool)

  /** `meanwhile` happens while the worker is suspended at the await. */
  datatype Turn = Turn(meanwhile: seq<Action>, wakeup: Wakeup)

  /** How a piece of the worker ended: normally, asking for the next iteration, by cancellation, or never. */
  datatype Flow = Proceed | Continue | Interrupted | Suspended

  /** What others do to the queue and to the running flag while the worker is suspended. */
  ghost predicate OnlyFed(s: State, t: State) {
    && t == s.(task := s.task.(running := t.task.running), queue := t.queue, past := s.past.(puts := t.past.puts))
    && s.queue.items <= t.queue.items
    && (t.task.running ==> s.task.running)
  }

  /** The state after those of `others` that feed the worker or tell it to stop, in that order. */
  function FedBy(s: State, others: seq<Action>): State {
    if others == [] then s
    else
      var t, a := FedBy(s, others[..|others| - 1]), others[|others| - 1];
      if (a.ClearRunning? || a.Put?) && Enabled(t, a) then Apply(t, a) else t
  }

  /** A piece of the worker that goes on unless it is cancelled, or runs out of turns. */
  function Resumed(script: seq<Turn>, used: nat): Flow {
    if |script| <= used then Suspended else if script[used].wakeup.IsCancelled? then Interrupted else Continue
  }

  /** From turn `used` on every await returns and nobody else does anything. */
  ghost predicate AllWell(script: seq<Turn>, used: nat) {
    forall k | used <= k < |script| :: script[k] == Turn([], Returns)
  }

  lemma FedOnce(s: State, t: State, a: Action)
    requires OnlyFed(s, t) && (a.Put? || a.ClearRunning?) && Enabled(t, a)
    ensures OnlyFed(s, Apply(t, a))
  {
  }

  /** From turn `used` on, every draw is within the jitter. */
  ghost predicate Playable(script: seq<Turn>, used: nat) {
    && used <= |script|
    && (forall k | used <= k < |script| :: script[k].wakeup.Raises? ==>
          1.0 - CONNECT_RETRY_JITTER <= script[k].wakeup.jitter <= 1.0 + CONNECT_RETRY_JITTER)
  }

  /** The last turn played was a cancellation. */
  predicate CancelledAt(script: seq<Turn>, now: nat) {
    0 < now <= |script| && script[now - 1].wakeup.IsCancelled?
  }

  /** ... of a call that had not yet reset the client. */
  predicate CutOffLast(script: seq<Turn>, now: nat) {
    0 < now <= |script| && script[now - 1].wakeup == IsCancelled(false)
  }

  predicate CancelledWithin(script: seq<Turn>, now: nat) {
    now <= |script| && exists k | 0 <= k < now :: script[k].wakeup.IsCancelled?
  }

  lemma CancelledBefore(script: seq<Turn>, at: nat, now: nat)
    requires CancelledAt(script, at) && at <= now <= |script|
    ensures CancelledWithin(script, now)
  {
    assert script[at - 1].wakeup.IsCancelled?;
  }

  /** What the send of a record came to. */
  function SendOutcome(wakeup: Wakeup): P.Outcome {
    match wakeup
    case Returns => P.Delivered
    case Raises(_) => P.Reported
    case IsCancelled(_) => P.CutOff
  }

  /** One more record acknowledged, with this outcome. */
  predicate AckedOnce(before: seq<P.Ack>, after: seq<P.Ack>, record: LogRecord, outcome: P.Outcome) {
    after == before + [P.Ack(record, outcome)]
  }

  class AsyncBrokerHandler {
    const owns: bool
    var client: Option<nat>
    var connected: nat
    var running: bool
    var items: seq<LogRecord>
    var unfinished: int
    var connectCalls: nat
    var sends: seq<Send>
    var acks: seq<P.Ack>
    var attempted: seq<nat>
    ghost var model: State
    ghost var trace: seq<Action>

    /** The object's fields and effects are those of `s`. */
    ghost predicate Agrees(s: State)
      reads this
    {
      && s.owns == owns && s.task.client == client && s.task.running == running
      && s.queue == Queue(items, unfinished)
      && |s.past.installed| == connected && s.past.connectCalls == connectCalls
      && s.past.sends == sends && s.past.acks == acks && s.past.attempted == attempted
    }

    ghost predicate Valid()
      reads this
    {
      IsRun(Initial(owns), trace) && model == Exec(Initial(owns), trace) && Agrees(model)
    }

    ghost predicate At(pc: Pc)
      reads this
    {
      Valid() && model.task.pc == pc
    }

    constructor (injected: bool)
      ensures owns == !injected && At(NotStarted) && trace == []
    {
      owns := !injected;
      client, connected, running := if injected then Some(0) else None, 0, false;
      items, unfinished, connectCalls, sends, acks, attempted := [], 0, 0, [], [], [];
      model, trace := Initial(!injected), [];
    }

    /** The object has just taken step `a` of the machine. */
    ghost method Took(a: Action)
      requires IsRun(Initial(owns), trace) && model == Exec(Initial(owns), trace) && Enabled(model, a)
      requires Agrees(Apply(model, a))
      modifies this`model, this`trace
      ensures Valid() && model == Apply(old(model), a) && trace == old(trace) + [a]
    {
      RunSnoc(Initial(owns), trace, a);
      model, trace := Apply(model, a), trace + [a];
    }

    lemma ValidInv()
      requires Valid()
      ensures Inv(model)
    {
      RunKeepsInv(owns, trace);
    }

    // ----- what others do -----

    /** `start_logging` sets the running flag and creates the worker's task, for the first time or again. */
    method StartWorker()
      requires Valid() && (model.task.pc.NotStarted? || model.task.pc.Ended?) && !running && items == []
      modifies this
      ensures At(LoopHead) && running && model == Apply(old(model), Start)
      ensures client == old(client) && !model.task.cancelled && model.task.delay == CONNECT_RETRY_BASE
    {
      hide IsRun, Exec;
      running := true;
      Took(Start);
    }

    method Put(record: LogRecord)
      requires Valid() && running
      modifies this
      ensures Valid() && model == Apply(old(model), Action.Put(record))
    {
      hide IsRun, Exec;
      items, unfinished := items + [record], unfinished + 1;
      Took(Action.Put(record));
    }

    method ClearRunning()
      requires Valid()
      modifies this
      ensures Valid() && model == Apply(old(model), Action.ClearRunning)
    {
      hide IsRun, Exec;
      running := false;
      Took(Action.ClearRunning);
    }

    method Meanwhile(others: seq<Action>)
      requires Valid()
      modifies this
      ensures Valid() && OnlyFed(old(model), model) && model == FedBy(old(model), others)
    {
      hide IsRun, Exec;
      for k := 0 to |others|
        invariant Valid() && OnlyFed(old(model), model) && model == FedBy(old(model), others[..k])
      {
        assert others[..k + 1][..k] == others[..k];
        if others[k].ClearRunning? {
          FedOnce(old(model), model, others[k]);
          ClearRunning();
        } else if others[k].Put? && running {
          FedOnce(old(model), model, others[k]);
          Put(others[k].record);
        }
      }
      assert others[..|others|] == others;
    }

    /** Suspend until the next turn of the script, if there is one. */
    method Await(script: seq<Turn>, used: nat) returns (now: nat, wakeup: Option<Wakeup>)
      requires Valid() && used <= |script|
      modifies this
      ensures Valid() && OnlyFed(old(model), model)
      ensures if used < |script| then now == used + 1 && wakeup == Some(script[used].wakeup)
              else now == used && wakeup == None
      ensures model == if used < |script| then FedBy(old(model), script[used].meanwhile) else old(model)
    {
      now, wakeup := used, None;
      if used < |script| {
        Meanwhile(script[used].meanwhile);
        now, wakeup := used + 1, Some(script[used].wakeup);
      }
    }

    // ----- the pieces of `_worker` -----

    /** `task_done()` and the fate of the record it is for. */
    method TaskDone(record: LogRecord, outcome: P.Outcome)
      modifies this`unfinished, this`acks
      ensures unfinished == old(unfinished) - 1 && acks == old(acks) + [P.Ack(record, outcome)]
    {
      unfinished, acks := unfinished - 1, acks + [P.Ack(record, outcome)];
    }

    /** `_disconnect()` up to its await: an injected client is left alone. */
    method BeginDisconnect()
      modifies this`attempted
      ensures attempted == if owns && client.Some? then old(attempted) + [client.value] else old(attempted)
    {
      if owns && client.Some? {
        attempted := attempted + [client.value];
      }
    }

    /** The outer `finally` up to its await, or to the end when there is nothing to await. */
    method BeginFinally()
      modifies this`attempted, this`client
      ensures attempted == if owns && old(client).Some? then old(attempted) + [old(client).value] else old(attempted)
      ensures client == if owns then old(client) else None
    {
      BeginDisconnect();
      if !owns {
        client := None;
      }
    }

    /** The cancellation arrives; `client` and the acknowledgements are as the cut-off call left them. */
    method Cancelled(cleared: bool)
      requires IsRun(Initial(owns), trace) && model == Exec(Initial(owns), trace)
      requires AtAwait(model.task.pc) && !model.task.pc.FinalDisconnect?
      requires Agrees(BeforeFinally(model, cleared))
      modifies this
      ensures Valid() && model == Apply(old(model), Cancel(cleared))
      ensures model.task.cancelled && InTeardown() && model.task.delay == old(model).task.delay
      ensures sends == old(sends) && acks == old(acks)
    {
      hide IsRun, Exec;
      BeginFinally();
      Took(Cancel(cleared));
    }

    /** The loop test succeeded: make sure there is a client, or back off. */
    method Connect(script: seq<Turn>, used: nat, delay: real) returns (now: nat, newDelay: real, flow: Flow)
      requires At(LoopHead) && (running || items != []) && delay == model.task.delay
      requires Playable(script, used)
      modifies this
      ensures Valid() && used <= now && Playable(script, now)
      ensures match flow
        case Proceed => model.task.pc.Getting? && newDelay == model.task.delay
        case Continue => used < now && model.task.pc.LoopHead? && newDelay == model.task.delay
        case Interrupted => model.task.cancelled && InTeardown() && CancelledAt(script, now)
        case Suspended => now == |script|
      ensures flow.Proceed? && owns && old(client) == None ==>
        used < |script| && script[used].wakeup.Returns? && connected == old(connected) + 1 && client == Some(connected)
      ensures flow.Continue? ==>
        used < |script| && script[used].wakeup.Raises? && client == None && newDelay == NextDelay(delay)
      ensures !flow.Interrupted? ==> sends == old(sends) && acks == old(acks)
      ensures !flow.Interrupted? ==> model.task.cancelled == old(model).task.cancelled
      ensures !(owns && old(client) == None) ==> flow == Proceed && now == used
      ensures (owns && old(client) == None) ==>
        flow == if used < |script| && script[used].wakeup.Returns? then Proceed
                else if used < |script| && script[used].wakeup.Raises? then Resumed(script, used + 1)
                else Resumed(script, used)
      ensures used < |script| && script[used] == Turn([], Returns) ==> items == old(items) && running == old(running)
      ensures !(owns && old(client) == None) ==> items == old(items) && running == old(running)
      ensures flow.Proceed? ==> now <= used + 1
    {
      hide IsRun, Exec;
      now, newDelay, flow := used, delay, Proceed;
      if client.Some? {
        Took(LoopTest);
      } else if !owns {
        client := Some(0);
        Took(LoopTest);
        newDelay := CONNECT_RETRY_BASE;
      } else {
        connectCalls := connectCalls + 1;
        Took(LoopTest);
        now, newDelay, flow := AwaitConnect(script, used, delay);
      }
    }

    ghost predicate InTeardown()
      reads this
    {
      model.task.pc == if owns then FinalDisconnect else Ended
    }

    method AwaitConnect(script: seq<Turn>, used: nat, delay: real) returns (now: nat, newDelay: real, flow: Flow)
      requires At(Connecting) && owns && client == None && delay == model.task.delay
      requires Playable(script, used)
      modifies this
      ensures Valid() && used <= now && Playable(script, now)
      ensures match flow
        case Proceed => model.task.pc.Getting? && newDelay == model.task.delay
        case Continue => used < now && model.task.pc.LoopHead? && newDelay == model.task.delay
        case Interrupted => model.task.cancelled && InTeardown() && CancelledAt(script, now)
        case Suspended => now == |script|
      ensures flow.Proceed? ==>
        used < |script| && script[used].wakeup.Returns? && connected == old(connected) + 1 && client == Some(connected)
      ensures flow.Continue? ==>
        used < |script| && script[used].wakeup.Raises? && client == None && newDelay == NextDelay(delay)
      ensures !flow.Interrupted? ==> sends == old(sends) && acks == old(acks)
      ensures !flow.Interrupted? ==> model.task.cancelled == old(model).task.cancelled
      ensures flow ==
        if used < |script| && script[used].wakeup.Returns? then Proceed
        else if used < |script| && script[used].wakeup.Raises? then Resumed(script, used + 1)
        else Resumed(script, used)
      ensures flow.Proceed? ==> now == used + 1
      ensures used < |script| && script[used] == Turn([], Returns) ==> items == old(items) && running == old(running)
    {
      hide IsRun, Exec;
      var wakeup;
      now, wakeup := Await(script, used);
      newDelay, flow := delay, Suspended;
      if wakeup == None {
      } else if wakeup.value.Returns? {
        Connected();
        newDelay, flow := CONNECT_RETRY_BASE, Proceed;
      } else if wakeup.value.IsCancelled? {
        ConnectCutOff(wakeup.value.cleared);
        flow := Interrupted;
      } else {
        ConnectFailed(delay, wakeup.value.jitter);
        now, newDelay, flow := BackOff(script, now, delay);
      }
    }

    /** `connect()` returned with a new client in place. */
    method Connected()
      requires At(Connecting)
      modifies this
      ensures At(Getting) && connected == old(connected) + 1 && client == Some(connected)
      ensures model.task.delay == CONNECT_RETRY_BASE && model.task.cancelled == old(model).task.cancelled
      ensures sends == old(sends) && acks == old(acks) && items == old(items) && running == old(running)
    {
      hide IsRun, Exec;
      connected, client := connected + 1, Some(connected + 1);
      Took(ConnectOk);
    }

    /** `connect()` was cancelled, perhaps with a client just put in place. */
    method ConnectCutOff(cleared: bool)
      requires At(Connecting)
      modifies this
      ensures Valid() && model.task.cancelled && InTeardown() && sends == old(sends) && acks == old(acks)
    {
      hide IsRun, Exec;
      if !cleared {
        connected, client := connected + 1, Some(connected + 1);
      }
      Cancelled(cleared);
    }

    /** The exception is reported and the sleep drawn. */
    method ConnectFailed(delay: real, jitter: real)
      requires At(Connecting) && delay == model.task.delay
      requires 1.0 - CONNECT_RETRY_JITTER <= jitter <= 1.0 + CONNECT_RETRY_JITTER
      modifies this
      ensures At(Sleeping) && model.task == old(model).task.(pc := Sleeping)
      ensures client == old(client) && sends == old(sends) && acks == old(acks)
    {
      hide IsRun, Exec;
      PositiveDelay();
      JitterScales(delay, jitter);
      Took(ConnectRaise(delay * jitter));
    }

    lemma PositiveDelay()
      requires At(Connecting)
      ensures 0.0 < model.task.delay
    {
      ValidInv();
      DelayPositive(|model.past.sleeps|);
    }

    /** The sleep between two connect attempts, and the doubling of the next one. */
    method BackOff(script: seq<Turn>, used: nat, delay: real) returns (now: nat, newDelay: real, flow: Flow)
      requires At(Sleeping) && delay == model.task.delay
      requires Playable(script, used)
      modifies this
      ensures Valid() && used <= now && Playable(script, now)
      ensures flow.Continue? || flow.Interrupted? || flow.Suspended?
      ensures flow.Continue? ==> used < now && model.task.pc.LoopHead? && newDelay == model.task.delay
      ensures flow.Interrupted? ==> used < now && model.task.cancelled && InTeardown() && CancelledAt(script, now)
      ensures flow.Suspended? ==> now == |script|
      ensures flow.Continue? ==> newDelay == NextDelay(delay) && client == old(client)
      ensures !flow.Interrupted? ==> sends == old(sends) && acks == old(acks)
      ensures !flow.Interrupted? ==> model.task.cancelled == old(model).task.cancelled
      ensures flow == Resumed(script, used)
    {
      hide IsRun, Exec;
      var wakeup;
      now, wakeup := Await(script, used);
      newDelay, flow := delay, Suspended;
      if wakeup == None {
      } else if wakeup.value.IsCancelled? {
        Cancelled(wakeup.value.cleared);
        flow := Interrupted;
      } else {
        newDelay := if delay * 2.0 <= CONNECT_RETRY_CAP then delay * 2.0 else CONNECT_RETRY_CAP;
        Took(SleepDone);
        flow := Continue;
      }
    }

    /** `wait_for(queue.get(), 1)`, and the start of the send. */
    method Fetch(script: seq<Turn>, used: nat) returns (now: nat, flow: Flow)
      requires At(Getting) && client.Some?
      requires Playable(script, used)
      modifies this
      ensures Valid() && used <= now && Playable(script, now)
      ensures model.task.delay == old(model).task.delay
      ensures match flow
        case Proceed => used < now && model.task.pc.Sending? && client.Some?
        case Continue => used < now && model.task.pc.LoopHead?
        case Interrupted => model.task.cancelled && InTeardown() && CancelledAt(script, now)
        case Suspended => now == |script|
      ensures flow.Proceed? ==>
        && used < |script| && script[used].wakeup.Returns? && client == old(client)
        && sends == old(sends) + [Send(model.task.pc.record, client.value)]
        && (old(items) != [] ==> model.task.pc.record == old(items)[0])
      ensures !flow.Proceed? ==> sends == old(sends)
      ensures !flow.Interrupted? ==> acks == old(acks)
      ensures !flow.Interrupted? ==> model.task.cancelled == old(model).task.cancelled
      ensures used < |script| ==>
        var all := FedBy(old(model), script[used].meanwhile).queue.items;
        && (flow.Interrupted? <==> script[used].wakeup.IsCancelled?)
        && (flow.Proceed? <==> script[used].wakeup.Returns? && all != [])
        && (flow.Proceed? ==> model.task.pc.record == all[0] && items == all[1..])
        && (!flow.Proceed? ==> items == all)
      ensures used < |script| && script[used].wakeup.Returns? && old(items) != [] ==>
        flow.Proceed? && model.task.pc.record == old(items)[0] && old(items)[1..] <= items
      ensures used == |script| ==> flow.Suspended?
      ensures used < |script| ==> now == used + 1
      ensures used < |script| && script[used].meanwhile == [] ==> running == old(running)
    {
      hide IsRun, Exec;
      var wakeup;
      now, wakeup := Await(script, used);
      if wakeup == None {
        flow := Suspended;
      } else if wakeup.value.IsCancelled? {
        Cancelled(wakeup.value.cleared);
        flow := Interrupted;
      } else if wakeup.value.Returns? && items != [] {
        Got();
        flow := Proceed;
      } else {
        TimedOut();
        flow := Continue;
      }
    }

    /** `get` returned the oldest record, which is sent. */
    method Got()
      requires At(Getting) && client.Some? && items != []
      modifies this
      ensures Valid() && model == Apply(old(model), GetRecord)
      ensures model.task == old(model).task.(pc := Sending(old(items)[0]))
      ensures items == old(items)[1..] && sends == old(sends) + [Send(old(items)[0], client.value)]
      ensures acks == old(acks) && client == old(client) && running == old(running)
    {
      hide IsRun, Exec;
      sends, items := sends + [Send(items[0], client.value)], items[1..];
      Took(GetRecord);
    }

    method TimedOut()
      requires At(Getting)
      modifies this
      ensures Valid() && model.task == old(model).task.(pc := LoopHead)
      ensures items == old(items) && sends == old(sends) && acks == old(acks) && running == old(running)
    {
      hide IsRun, Exec;
      Took(GetTimeout);
    }

    /** The send of one record, its report when it fails, and its acknowledgement either way. */
    method Deliver(script: seq<Turn>, used: nat) returns (now: nat, flow: Flow)
      requires Valid() && model.task.pc.Sending?
      requires Playable(script, used)
      modifies this
      ensures Valid() && used <= now && Playable(script, now)
      ensures model.task.delay == old(model).task.delay
      ensures flow.Continue? || flow.Interrupted? || flow.Suspended?
      ensures flow.Continue? ==> used < now && model.task.pc.LoopHead?
      ensures flow.Interrupted? ==> used < now && model.task.cancelled && InTeardown() && CancelledAt(script, now)
      ensures flow.Suspended? ==> now == |script|
      ensures sends == old(sends) && (flow.Suspended? ==> acks == old(acks))
      ensures flow.Continue? ==>
        used < |script| && AckedOnce(old(acks), acks, old(model).task.pc.record, SendOutcome(script[used].wakeup))
      ensures flow.Interrupted? ==>
        used < |script| && AckedOnce(old(acks), acks, old(model).task.pc.record, SendOutcome(script[used].wakeup))
      ensures !flow.Interrupted? ==> model.task.cancelled == old(model).task.cancelled
      ensures flow == if used < |script| && script[used].wakeup.Raises? && owns then Resumed(script, used + 1)
                      else Resumed(script, used)
      ensures used < |script| && script[used] == Turn([], Returns) ==>
        now == used + 1 && items == old(items) && running == old(running) && client == old(client)
    {
      hide IsRun, Exec;
      var record := InFlight();
      var wakeup;
      now, wakeup := Await(script, used);
      flow := Suspended;
      if wakeup == None {
      } else if wakeup.value.Returns? {
        SendReturned(record);
        flow := Continue;
      } else if wakeup.value.IsCancelled? {
        SendCutOff(record, wakeup.value.cleared);
        flow := Interrupted;
      } else {
        now, flow := Fail(script, now, record);
      }
    }

    method SendReturned(record: LogRecord)
      requires At(Sending(record))
      modifies this
      ensures At(LoopHead) && model.task == old(model).task.(pc := LoopHead)
      ensures sends == old(sends) && AckedOnce(old(acks), acks, record, P.Delivered)
      ensures items == old(items) && running == old(running) && client == old(client)
    {
      hide IsRun, Exec;
      TaskDone(record, P.Delivered);
      Took(SendOk);
    }

    method SendCutOff(record: LogRecord, cleared: bool)
      requires At(Sending(record))
      modifies this
      ensures Valid() && model.task.cancelled && InTeardown() && model.task.delay == old(model).task.delay
      ensures sends == old(sends) && AckedOnce(old(acks), acks, record, P.CutOff)
    {
      hide IsRun, Exec;
      TaskDone(record, P.CutOff);
      Cancelled(cleared);
    }

    /** `send_message` raised: the record is reported, never retried. */
    method Fail(script: seq<Turn>, used: nat, record: LogRecord) returns (now: nat, flow: Flow)
      requires At(Sending(record))
      requires Playable(script, used)
      modifies this
      ensures Valid() && used <= now && Playable(script, now)
      ensures model.task.delay == old(model).task.delay
      ensures flow.Continue? || flow.Interrupted? || flow.Suspended?
      ensures flow.Continue? ==> model.task.pc.LoopHead?
      ensures flow.Interrupted? ==> used < now && model.task.cancelled && InTeardown() && CancelledAt(script, now)
      ensures flow.Suspended? ==> now == |script|
      ensures sends == old(sends) && (flow.Suspended? ==> acks == old(acks))
      ensures !flow.Suspended? ==> AckedOnce(old(acks), acks, record, P.Reported)
      ensures !flow.Interrupted? ==> model.task.cancelled == old(model).task.cancelled
      ensures flow == if owns then Resumed(script, used) else Continue
    {
      hide IsRun, Exec;
      if !owns {
        TaskDone(record, P.Reported);
        Took(SendRaise);
        now, flow := used, Continue;
      } else {
        BeginDisconnect();
        Took(SendRaise);
        now, flow := Reset(script, used, record);
      }
    }

    /** The record handed to `send_message` last. */
    method InFlight() returns (record: LogRecord)
      requires Valid() && model.task.pc.Sending?
      ensures record == model.task.pc.record
    {
      ValidInv();
      SentLast(sends);
      record := sends[|sends| - 1].record;
    }

    /** The client a send failed on is torn down, whatever `disconnect()` does. */
    method Reset(script: seq<Turn>, used: nat, record: LogRecord) returns (now: nat, flow: Flow)
      requires At(Disconnecting(record)) && owns
      requires Playable(script, used)
      modifies this
      ensures Valid() && used <= now && Playable(script, now)
      ensures model.task.delay == old(model).task.delay
      ensures flow.Continue? || flow.Interrupted? || flow.Suspended?
      ensures flow.Continue? ==> used < now && model.task.pc.LoopHead? && client == None
      ensures flow.Interrupted? ==> used < now && model.task.cancelled && InTeardown() && CancelledAt(script, now)
      ensures flow.Suspended? ==> now == |script|
      ensures sends == old(sends) && (flow.Suspended? ==> acks == old(acks))
      ensures !flow.Suspended? ==> AckedOnce(old(acks), acks, record, P.Reported)
      ensures !flow.Interrupted? ==> model.task.cancelled == old(model).task.cancelled
      ensures flow == Resumed(script, used)
    {
      hide IsRun, Exec;
      var wakeup;
      now, wakeup := Await(script, used);
      flow := Suspended;
      if wakeup == None {
      } else if wakeup.value.IsCancelled? {
        if wakeup.value.cleared {
          client := None;
        }
        TaskDone(record, P.Reported);
        Cancelled(wakeup.value.cleared);
        flow := Interrupted;
      } else {
        WasReset(record, wakeup.value.Returns?);
        flow := Continue;
      }
    }

    method WasReset(record: LogRecord, returned: bool)
      requires At(Disconnecting(record))
      modifies this
      ensures At(LoopHead) && client == None
      ensures model.task == old(model).task.(pc := LoopHead, client := None)
      ensures sends == old(sends) && AckedOnce(old(acks), acks, record, P.Reported)
    {
      hide IsRun, Exec;
      client := None;
      TaskDone(record, P.Reported);
      if returned {
        Took(DisconnectOk);
      } else {
        Took(DisconnectRaise);
      }
    }

    /** The final `disconnect()`; a cancellation inside it, the worker's first or second, can leave the reference in place. */
    method FinishDisconnect(script: seq<Turn>, used: nat) returns (now: nat, ended: bool)
      requires At(FinalDisconnect) && Playable(script, used)
      modifies this
      ensures Valid() && used <= now <= |script|
      ensures ended ==> model.task.pc.Ended?
      ensures ended ==> (client == None <==> old(client) == None || !CutOffLast(script, now))
      ensures !ended ==> now == |script|
      ensures model.task.cancelled == (old(model).task.cancelled || (ended && CancelledAt(script, now)))
      ensures ended <==> used < |script|
      ensures used < |script| && script[used] == Turn([], Returns) ==>
        acks == old(acks) && items == old(items) && running == old(running)
    {
      hide IsRun, Exec;
      var wakeup;
      now, wakeup := Await(script, used);
      ended := wakeup.Some?;
      if ended {
        if !wakeup.value.IsCancelled? || wakeup.value.cleared {
          client := None;
        }
        if wakeup.value.IsCancelled? {
          Took(Cancel(wakeup.value.cleared));
        } else if wakeup.value.Returns? {
          Took(DisconnectOk);
        } else {
          Took(DisconnectRaise);
        }
      }
    }

    // ----- `_worker` -----

    /** One turn of the loop behind a successful test. */
    method Iterate(script: seq<Turn>, used: nat, delay: real) returns (now: nat, newDelay: real, flow: Flow)
      requires At(LoopHead) && (running || items != []) && delay == model.task.delay
      requires Playable(script, used)
      modifies this
      ensures Valid() && used <= now && Playable(script, now)
      ensures flow.Continue? || flow.Interrupted? || flow.Suspended?
      ensures flow.Continue? ==> used < now && model.task.pc.LoopHead? && newDelay == model.task.delay
      ensures flow.Interrupted? ==> model.task.cancelled && InTeardown() && CancelledAt(script, now)
      ensures flow.Suspended? ==> now == |script|
      ensures !flow.Interrupted? ==> model.task.cancelled == old(model).task.cancelled
      ensures AllWell(script, used) && used + 3 <= |script| && old(items) != [] ==>
        && flow.Continue? && items == old(items)[1..] && running == old(running)
        && AckedOnce(old(acks), acks, old(items)[0], P.Delivered)
        && client.Some? && now <= used + (if owns && old(client) == None then 3 else 2)
    {
      hide IsRun, Exec, Playable, OnlyFed;
      now, newDelay, flow := Connect(script, used, delay);
      if flow.Proceed? {
        HasClient();
        now, flow := Fetch(script, now);
      }
      if flow.Proceed? {
        now, flow := Deliver(script, now);
      }
    }

    lemma HasClient()
      requires At(Getting)
      ensures client.Some?
    {
      hide IsRun, Exec;
      ValidInv();
    }

    /** The loop test failed: the worker ends by itself. */
    method LeaveLoop()
      requires At(LoopHead) && !running && items == []
      modifies this
      ensures Valid() && InTeardown() && model.task.cancelled == old(model).task.cancelled
      ensures acks == old(acks) && items == old(items) && running == old(running)
    {
      hide IsRun, Exec;
      BeginFinally();
      Took(LoopTest);
    }

    /**
     * `_worker`, from its first loop test on.  `ended` is false when the script runs out first.  A worker that
     * ended has acknowledged every record it took out of the queue, each once and in order; one that was not
     * cancelled has emptied its queue and released its client; a cancelled one has released it too, unless its
     * last `disconnect()` was cut off.  With a broker that answers every call, a worker told to stop delivers all that is
     * queued, in order, and ends.
     */
    method Worker(script: seq<Turn>) returns (used: nat, ended: bool)
      requires At(LoopHead) && model.task.delay == CONNECT_RETRY_BASE
      requires Playable(script, 0)
      modifies this
      ensures Valid() && (!ended ==> used == |script|)
      ensures ended ==> model.task.pc.Ended? && Sent(sends) == I.Acked(acks) && unfinished == |items|
      ensures ended && !model.task.cancelled ==> client == None && items == [] && unfinished == 0 && !running
      ensures ended && client.Some? ==> owns && client.value in attempted && CutOffLast(script, used)
      ensures model.task.cancelled ==> old(model).task.cancelled || CancelledWithin(script, used)
      ensures AllWell(script, 0) && !old(running) && 2 * |old(items)| + 2 <= |script| ==>
        ended && items == [] && acks == old(acks) + I.DeliveredAcks(old(items))
    {
      hide IsRun, Exec, Playable, OnlyFed, AllWell;
      var flow;
      used, flow := Loop(script);
      ended := !flow.Suspended?;
      if flow.Continue? {
        LeaveLoop();
      }
      ghost var at := used;
      if ended && owns {
        WellAt(script, used);
        used, ended := FinishDisconnect(script, used);
      }
      if flow.Interrupted? {
        CancelledBefore(script, at, used);
      } else if model.task.cancelled && !old(model).task.cancelled {
        CancelledBefore(script, used, used);
      }
      EndedWell();
    }

    /** The `while` of `_worker`: left by its test, by a cancellation, or never. */
    method Loop(script: seq<Turn>) returns (used: nat, flow: Flow)
      requires At(LoopHead) && model.task.delay == CONNECT_RETRY_BASE
      requires Playable(script, 0)
      modifies this
      ensures Valid() && Playable(script, used) && used <= |script|
      ensures match flow
        case Proceed => false
        case Continue => model.task.pc.LoopHead? && !running && items == []
        case Interrupted => model.task.cancelled && InTeardown() && CancelledAt(script, used)
        case Suspended => used == |script|
      ensures !flow.Interrupted? ==> model.task.cancelled == old(model).task.cancelled
      ensures AllWell(script, 0) && !old(running) && 2 * |old(items)| + 2 <= |script| ==>
        && flow.Continue? && acks == old(acks) + I.DeliveredAcks(old(items))
        && used < |script| && AllWell(script, used)
    {
      hide IsRun, Exec, Playable, OnlyFed, AllWell;
      var connectDelay := CONNECT_RETRY_BASE;
      used, flow := 0, Continue;
      ghost var n: nat, well := 0, AllWell(script, 0) && !running && 2 * |items| + 2 <= |script|;
      while flow.Continue? && (running || items != [])
        invariant Valid() && Playable(script, used) && used <= |script|
        invariant flow.Continue? || flow.Interrupted? || flow.Suspended?
        invariant flow.Continue? ==> model.task.pc.LoopHead? && connectDelay == model.task.delay
        invariant flow.Interrupted? ==> model.task.cancelled && InTeardown() && CancelledAt(script, used)
        invariant !flow.Interrupted? ==> model.task.cancelled == old(model).task.cancelled
        invariant flow.Suspended? ==> used == |script|
        invariant well ==> AllWell(script, used) && Delivered(old(items), n, old(acks)) && flow.Continue? && !running
        invariant well ==> used <= 2 * n + (if client.Some? then 1 else 0)
        decreases flow.Continue?, |script| - used
      {
        ghost var before := used;
        used, connectDelay, flow := Iterate(script, used, connectDelay);
        PlayableWithin(script, used);
        if well {
          StillWell(script, before, used);
          I.DeliveredNext(old(items), n);
          n := n + 1;
        }
      }
      assert well ==> old(items)[..n] == old(items);
    }

    /** The first `n` of the records are acknowledged as delivered, the others are still queued. */
    ghost predicate Delivered(records: seq<LogRecord>, n: nat, before: seq<P.Ack>)
      reads this
    {
      n <= |records| && items == records[n..] && acks == before + I.DeliveredAcks(records[..n])
    }

    lemma StillWell(script: seq<Turn>, used: nat, now: nat)
      requires AllWell(script, used) && used <= now
      ensures AllWell(script, now)
    {
    }

    lemma WellAt(script: seq<Turn>, used: nat)
      ensures AllWell(script, used) && used < |script| ==> script[used] == Turn([], Returns)
    {
    }

    lemma PlayableWithin(script: seq<Turn>, used: nat)
      requires Playable(script, used)
      ensures used <= |script|
    {
    }

    lemma EndedWell()
      requires Valid()
      ensures model.task.pc.Ended? ==>
        && Sent(sends) == I.Acked(acks) && unfinished == |items|
        && (client.Some? ==> owns && client.value in attempted)
        && (!model.task.cancelled ==> items == [] && unfinished == 0 && !running)
    {
      hide IsRun, Exec;
      ValidInv();
    }
  }
}
