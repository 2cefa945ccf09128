/** What the broker worker keeps over every run, every cancellation and every restart. */
module BrokerTheorems {
  import opened Records
  import opened Sequences
  import opened Backoff
  import opened Broker
  import P = Pipeline
  import I = PipelineInvariant
  import S = PipelineSteps
  import T = PipelineTheorems

  function InHand(pc: Pc): seq<LogRecord> {
    if pc.Sending? || pc.Disconnecting? then [pc.record] else []
  }

  function Sent(sends: seq<Send>): seq<LogRecord> {
    if sends == [] then [] else Sent(sends[..|sends| - 1]) + [sends[|sends| - 1].record]
  }

  function CutOffs(acks: seq<P.Ack>): nat {
    if acks == [] then 0 else CutOffs(acks[..|acks| - 1]) + (if acks[|acks| - 1].outcome == P.CutOff then 1 else 0)
  }

  /** Each dequeued record was sent once and acknowledged once, save the one still in hand. */
  ghost predicate RecordsOk(pc: Pc, q: Queue, h: History) {
    && q.unfinished == |q.items| + |InHand(pc)|
    && h.puts == h.removed + q.items
    && Subsequence(h.dequeued, h.removed)
    && Sent(h.sends) == h.dequeued
    && I.Acked(h.acks) + InHand(pc) == h.dequeued
  }

  ghost predicate CutOffsOk(t: Task, h: History) {
    && h.cycleStart <= |h.acks|
    && CutOffs(h.acks[h.cycleStart..]) <= (if t.cancelled then 1 else 0)
  }

  /** An owned client is the newest one installed; every older one got a disconnect attempt. */
  ghost predicate OwnedOk(t: Task, h: History) {
    && (forall k | 0 <= k < |h.installed| :: h.installed[k] == k + 1)
    && (t.client.Some? ==> t.client.value == |h.installed| && 0 < |h.installed|)
    && (forall c | 1 <= c <= |h.installed| :: c in h.attempted || t.client == Some(c))
    && (forall c | c in h.attempted :: 1 <= c <= |h.installed|)
    && (forall k | 0 <= k < |h.sends| :: 1 <= h.sends[k].client <= |h.installed|)
  }

  /** An injected client is never connected or disconnected, and no other client is ever used. */
  ghost predicate InjectedOk(t: Task, h: History) {
    && h.installed == [] && h.attempted == [] && h.connectCalls == 0
    && (t.client.Some? ==> t.client.value == 0)
    && (forall k | 0 <= k < |h.sends| :: h.sends[k].client == 0)
    && !t.pc.Connecting? && !t.pc.Sleeping? && !t.pc.Disconnecting? && !t.pc.FinalDisconnect?
  }

  ghost predicate ClientOk(owns: bool, t: Task, h: History) {
    && (if owns then OwnedOk(t, h) else InjectedOk(t, h))
    && (t.pc.Connecting? || t.pc.Sleeping? ==> t.client == None)
    && (t.pc.Getting? || t.pc.Sending? || t.pc.Disconnecting? ==> t.client.Some?)
    && (t.pc.Disconnecting? || t.pc.FinalDisconnect? || t.pc.Ended? ==> t.client.Some? ==> t.client.value in h.attempted)
  }

  ghost predicate BackoffOk(t: Task, h: History) {
    && BacksOff(h.sleeps)
    && (t.pc.LoopHead? || t.pc.Connecting? || t.pc.Getting? || t.pc.Sending? || t.pc.Disconnecting? ==>
          t.delay == Delay(|h.sleeps|))
    && (t.pc.Sleeping? ==> h.sleeps != [] && t.delay == Delay(|h.sleeps| - 1))
    && (t.client.Some? && !t.pc.NotStarted? && !t.pc.Ended? && !t.pc.FinalDisconnect? ==> h.sleeps == [])
  }

  /** A worker that ends by itself has nothing left to do; a cancelled one is in its teardown. */
  ghost predicate ExitOk(t: Task, q: Queue) {
    && ((t.pc.FinalDisconnect? || t.pc.Ended?) && !t.cancelled ==> !t.running && q.items == [])
    && (t.cancelled ==> t.pc.FinalDisconnect? || t.pc.Ended?)
  }

  ghost predicate Inv(s: State) {
    && ExitOk(s.task, s.queue)
    && RecordsOk(s.task.pc, s.queue, s.past)
    && CutOffsOk(s.task, s.past)
    && ClientOk(s.owns, s.task, s.past)
    && BackoffOk(s.task, s.past)
  }

  lemma SentSnoc(sends: seq<Send>, x: Send)
    ensures Sent(sends + [x]) == Sent(sends) + [x.record]
  {
    assert (sends + [x])[..|sends|] == sends;
  }

  lemma SentLast(sends: seq<Send>)
    requires Sent(sends) != []
    ensures sends != [] && Sent(sends)[|Sent(sends)| - 1] == sends[|sends| - 1].record
  {
  }

  lemma CutOffsSnoc(acks: seq<P.Ack>, from: nat, a: P.Ack)
    requires from <= |acks|
    ensures CutOffs((acks + [a])[from..]) == CutOffs(acks[from..]) + (if a.outcome == P.CutOff then 1 else 0)
  {
    assert (acks + [a])[from..] == acks[from..] + [a];
    assert (acks[from..] + [a])[..|acks[from..]|] == acks[from..];
  }

  // ----- part by part -----

  /** The record in hand is acknowledged and nothing else happens to the records. */
  lemma AckedOk(pc: Pc, after: Pc, q: Queue, h: History, h': History, outcome: P.Outcome)
    requires RecordsOk(pc, q, h) && InHand(pc) != [] && InHand(after) == []
    requires h'.acks == h.acks + [P.Ack(pc.record, outcome)]
    requires h'.puts == h.puts && h'.removed == h.removed && h'.dequeued == h.dequeued && h'.sends == h.sends
    ensures RecordsOk(after, q.(unfinished := q.unfinished - 1), h')
  {
    S.AckedSnoc(h.acks, P.Ack(pc.record, outcome));
  }

  lemma DequeuedOk(s: State)
    requires RecordsOk(s.task.pc, s.queue, s.past) && s.task.pc.Getting? && s.queue.items != []
    ensures var t := Dequeue(s); RecordsOk(t.task.pc, t.queue, t.past)
  {
    var r := s.queue.items[0];
    assert s.queue.items == [r] + s.queue.items[1..];
    ConcatAssoc(s.past.removed, [r], s.queue.items[1..]);
    SubsequenceSnoc(s.past.dequeued, s.past.removed, r);
    SentSnoc(s.past.sends, Dequeue(s).past.sends[|s.past.sends|]);
    assert I.Acked(s.past.acks) + [] == I.Acked(s.past.acks);
  }

  lemma DiscardedOk(s: State)
    requires RecordsOk(s.task.pc, s.queue, s.past) && Enabled(s, Discard)
    ensures var t := Apply(s, Discard); RecordsOk(t.task.pc, t.queue, t.past)
  {
    var r := s.queue.items[0];
    assert s.queue.items == [r] + s.queue.items[1..];
    ConcatAssoc(s.past.removed, [r], s.queue.items[1..]);
    SubsequenceSnoc(s.past.dequeued, s.past.removed, r);
  }

  /** Entering the teardown touches no record. */
  lemma TeardownKeeps(s: State)
    ensures var t := EnterFinally(s);
      && t.queue == s.queue && t.owns == s.owns && InHand(t.task.pc) == []
      && t.task.cancelled == s.task.cancelled
      && t.past == s.past.(attempted := t.past.attempted)
  {
  }

  lemma RecordsCancelled(s: State, cleared: bool)
    requires RecordsOk(s.task.pc, s.queue, s.past) && Enabled(s, Cancel(cleared))
    ensures var t := CancelStep(s, cleared); RecordsOk(t.task.pc, t.queue, t.past)
  {
    hide Subsequence, Sent, I.Acked, EnterFinally;
    var t := CancelStep(s, cleared);
    TeardownKeeps(BeforeFinally(s, cleared));
    if InHand(s.task.pc) != [] {
      AckedOk(s.task.pc, t.task.pc, s.queue, s.past, t.past, t.past.acks[|s.past.acks|].outcome);
    }
  }

  lemma RecordsKept(s: State, a: Action)
    requires RecordsOk(s.task.pc, s.queue, s.past) && Enabled(s, a)
    ensures var t := Apply(s, a); RecordsOk(t.task.pc, t.queue, t.past)
  {
    hide Subsequence, Sent, I.Acked, CancelStep, EnterFinally, Dequeue;
    var t := Apply(s, a);
    if a.GetRecord? {
      DequeuedOk(s);
    } else if a.Discard? {
      DiscardedOk(s);
    } else if a.Cancel? {
      RecordsCancelled(s, a.cleared);
    } else if a.LoopTest? {
      TeardownKeeps(s);
    } else if |t.past.acks| != |s.past.acks| {
      AckedOk(s.task.pc, t.task.pc, s.queue, s.past, t.past, t.past.acks[|s.past.acks|].outcome);
    }
  }

  lemma CutOffsKept(s: State, a: Action)
    requires CutOffsOk(s.task, s.past) && ExitOk(s.task, s.queue) && Enabled(s, a)
    ensures var t := Apply(s, a); CutOffsOk(t.task, t.past)
  {
    hide CutOffs, NextDelay;
    var t := Apply(s, a);
    if a.Start? {
      CutOffsNone(s.past.acks);
    } else if |t.past.acks| != |s.past.acks| {
      CutOffsSnoc(s.past.acks, s.past.cycleStart, t.past.acks[|s.past.acks|]);
    }
  }

  lemma CutOffsNone(acks: seq<P.Ack>)
    ensures CutOffs(acks[|acks|..]) == 0
  {
  }

  lemma InstallOk(s: State)
    requires ClientOk(s.owns, s.task, s.past) && s.task.pc.Connecting?
    ensures OwnedOk(Install(s).task, Install(s).past)
  {
    var n := |s.past.installed|;
    forall c | 1 <= c <= n + 1 ensures c in s.past.attempted || c == n + 1 {
    }
  }

  /** An attempt on the present client makes it one that may be dropped. */
  lemma AttemptOk(t: Task, h: History, after: Task, h': History)
    requires OwnedOk(t, h)
    requires h'.installed == h.installed && h'.sends == h.sends
    requires h'.attempted == if t.client.Some? then h.attempted + [t.client.value] else h.attempted
    requires after.client == t.client || after.client == None
    ensures OwnedOk(after, h')
  {
    forall c | 1 <= c <= |h.installed| ensures c in h'.attempted || after.client == Some(c) {
      if c !in h.attempted {
        assert h'.attempted[|h.attempted|] == c;
      }
    }
  }

  lemma ClientKept(s: State, a: Action)
    requires ClientOk(s.owns, s.task, s.past) && Enabled(s, a)
    ensures var t := Apply(s, a); ClientOk(t.owns, t.task, t.past)
  {
    if s.owns {
      if a.Cancel? {
        OwnedCancelKept(s, a.cleared);
      } else {
        OwnedKept(s, a);
      }
    }
  }

  lemma OwnedKept(s: State, a: Action)
    requires s.owns && ClientOk(s.owns, s.task, s.past) && Enabled(s, a) && !a.Cancel?
    ensures var t := Apply(s, a); ClientOk(t.owns, t.task, t.past)
  {
    hide NextDelay;
    var t := Apply(s, a);
    if a.ConnectOk? {
      InstallOk(s);
    } else if a.LoopTest? || a.SendRaise? {
      if t.past.attempted != s.past.attempted {
        AttemptOk(s.task, s.past, t.task, t.past);
      }
    }
  }

  lemma OwnedCancelKept(s: State, cleared: bool)
    requires s.owns && ClientOk(s.owns, s.task, s.past) && Enabled(s, Cancel(cleared))
    ensures var t := CancelStep(s, cleared); ClientOk(t.owns, t.task, t.past)
  {
    var t := CancelStep(s, cleared);
    if s.task.pc.Connecting? && !cleared {
      InstallOk(s);
      AttemptOk(Install(s).task, Install(s).past, t.task, t.past);
    } else if t.past.attempted != s.past.attempted {
      AttemptOk(s.task, s.past, t.task, t.past);
    }
  }

  /** A cancelled worker goes straight to its teardown and never sleeps again. */
  lemma BackoffCancelled(s: State, cleared: bool)
    requires BackoffOk(s.task, s.past) && Enabled(s, Cancel(cleared))
    ensures var t := CancelStep(s, cleared); BackoffOk(t.task, t.past)
  {
    hide Delay, NextDelay, BacksOff;
  }

  lemma BackoffTeardown(s: State)
    requires BackoffOk(s.task, s.past)
    ensures var t := EnterFinally(s); BackoffOk(t.task, t.past)
  {
    hide Delay, NextDelay, BacksOff;
  }

  lemma BackoffKept(s: State, a: Action)
    requires BackoffOk(s.task, s.past) && ClientOk(s.owns, s.task, s.past) && Enabled(s, a)
    ensures var t := Apply(s, a); BackoffOk(t.task, t.past)
  {
    hide OwnedOk, InjectedOk, NextDelay, CancelStep, EnterFinally, BacksOff;
    NoSleeps();
    if a.Cancel? {
      BackoffCancelled(s, a.cleared);
    } else if a.LoopTest? {
      BackoffTeardown(s);
    } else if a.ConnectRaise? {
      SleptOnce(s.past.sleeps, a.sleep);
    } else if a.SleepDone? {
      assert Delay(|s.past.sleeps|) == NextDelay(Delay(|s.past.sleeps| - 1));
    }
  }

  lemma ExitKept(s: State, a: Action)
    requires ExitOk(s.task, s.queue) && Enabled(s, a)
    ensures var t := Apply(s, a); ExitOk(t.task, t.queue)
  {
    hide NextDelay;
    if a.Cancel? {
      TeardownKeeps(BeforeFinally(s, a.cleared));
    }
  }

  lemma StepKeepsInv(s: State, a: Action)
    requires Inv(s) && Enabled(s, a)
    ensures Inv(Apply(s, a))
  {
    hide RecordsOk, CutOffsOk, ClientOk, BackoffOk, ExitOk;
    ExitKept(s, a);
    RecordsKept(s, a);
    CutOffsKept(s, a);
    ClientKept(s, a);
    BackoffKept(s, a);
  }

  lemma {:induction false} RunKeepsInv(owns: bool, acts: seq<Action>)
    requires IsRun(Initial(owns), acts)
    ensures Inv(Exec(Initial(owns), acts))
  {
    if acts != [] {
      var before := acts[..|acts| - 1];
      RunKeepsInv(owns, before);
      StepKeepsInv(Exec(Initial(owns), before), acts[|acts| - 1]);
    }
  }

  // ----- the theorems -----

  /** `s` is a state some run of a fresh handler ends in. */
  ghost predicate Reachable(s: State) {
    exists owns: bool, acts: seq<Action> :: IsRun(Initial(owns), acts) && s == Exec(Initial(owns), acts)
  }

  lemma ReachableInv(s: State)
    requires Reachable(s)
    ensures Inv(s)
  {
    var owns: bool, acts: seq<Action> :| IsRun(Initial(owns), acts) && s == Exec(Initial(owns), acts);
    RunKeepsInv(owns, acts);
  }

  /**
   * At-most-once.  The k-th dequeued record is the k-th one handed to `send_message` and the k-th one
   * acknowledged, so none is retried, skipped or acknowledged twice; the count the drain waits on is exact.
   * What was delivered keeps the order of the queue, and each worker run leaves at most one record cut off.
   */
  lemma OneAttemptOneAcknowledge(s: State)
    requires Reachable(s)
    ensures Sent(s.past.sends) == s.past.dequeued == I.Acked(s.past.acks) + InHand(s.task.pc)
    ensures s.past.puts == s.past.removed + s.queue.items && Subsequence(s.past.dequeued, s.past.removed)
    ensures Subsequence(I.DeliveredOf(s.past.acks), I.Acked(s.past.acks))
    ensures s.queue.unfinished == |s.queue.items| + |InHand(s.task.pc)|
    ensures s.past.cycleStart <= |s.past.acks| && CutOffs(s.past.acks[s.past.cycleStart..]) <= 1
    ensures !s.task.cancelled ==> CutOffs(s.past.acks[s.past.cycleStart..]) == 0
  {
    ReachableInv(s);
    T.DeliveredInOrder(s.past.acks);
  }

  /** Consecutive failures sleep within twenty per cent of the closed form and cannot outrun the rate bound. */
  lemma ReconnectRate(s: State, k: nat)
    requires Reachable(s) && k < |s.past.sleeps|
    ensures var ideal := if 0.5 * Pow2(k) as real <= 30.0 then 0.5 * Pow2(k) as real else 30.0;
      0.8 * ideal <= s.past.sleeps[k] <= 1.2 * ideal
    ensures |s.past.sleeps| as real <= Sum(s.past.sleeps) / 24.0 + 5.0
  {
    ReachableInv(s);
    DelayClosedForm(k);
    RateBound(s.past.sleeps);
  }

  /** Every client `connect()` installed had a disconnect attempted on it before its reference was dropped. */
  lemma OwnedClientsReleased(s: State, c: nat)
    requires Reachable(s) && s.owns && c in s.past.installed
    ensures c in s.past.attempted || s.task.client == Some(c)
    ensures s.task.pc.Ended? ==> c in s.past.attempted
  {
    ReachableInv(s);
  }

  /** The host's client is used as it is: never connected, never disconnected, never replaced. */
  lemma InjectedClientUntouched(s: State)
    requires Reachable(s) && !s.owns
    ensures s.past.connectCalls == 0 && s.past.installed == [] && s.past.attempted == []
    ensures s.task.client == None || s.task.client == Some(0)
    ensures forall k | 0 <= k < |s.past.sends| :: s.past.sends[k].client == 0
  {
    ReachableInv(s);
  }

  // ----- when the teardown leaves the client behind -----

  /** The cancellation arrives inside the final `disconnect()`, before it has reset the reference. */
  predicate CutTeardown(s: State, a: Action) {
    a == Cancel(false) && s.task.pc.FinalDisconnect? && s.task.client.Some?
  }

  lemma CancelledWithoutClient(s: State, cleared: bool)
    requires ClientOk(s.owns, s.task, s.past) && Enabled(s, Cancel(cleared)) && CancelStep(s, cleared).task.pc.Ended?
    ensures CancelStep(s, cleared).task.client == None <==> !CutTeardown(s, Cancel(cleared))
  {
    hide OwnedOk, BeforeFinally;
  }

  lemma LeftWithoutClient(s: State, a: Action)
    requires ClientOk(s.owns, s.task, s.past) && Enabled(s, a) && !a.Cancel?
    requires !s.task.pc.Ended? && Apply(s, a).task.pc.Ended?
    ensures Apply(s, a).task.client == None
  {
    hide OwnedOk, InjectedOk, NextDelay, CancelStep;
  }

  /** The step that ends a worker leaves `client` at None unless it is exactly that cancellation. */
  lemma EndedWithoutClient(s: State, a: Action)
    requires Reachable(s) && Enabled(s, a) && !s.task.pc.Ended? && Apply(s, a).task.pc.Ended?
    ensures Apply(s, a).task.client == None <==> !CutTeardown(s, a)
  {
    ReachableInv(s);
    hide ClientOk, RecordsOk, CutOffsOk, BackoffOk, ExitOk, CancelStep;
    if a.Cancel? {
      CancelledWithoutClient(s, a.cleared);
    } else {
      LeftWithoutClient(s, a);
    }
  }

  ghost predicate CleanTeardowns(s: State, acts: seq<Action>)
    requires IsRun(s, acts)
  {
    acts == [] ||
    (IsRun(s, acts[..|acts| - 1]) && CleanTeardowns(s, acts[..|acts| - 1]) &&
     !CutTeardown(Exec(s, acts[..|acts| - 1]), acts[|acts| - 1]))
  }

  lemma CleanLast(s: State, acts: seq<Action>)
    requires IsRun(s, acts) && CleanTeardowns(s, acts) && acts != []
    ensures var before := acts[..|acts| - 1];
      IsRun(s, before) && CleanTeardowns(s, before) && !CutTeardown(Exec(s, before), acts[|acts| - 1])
  {
    hide Enabled, Apply, CutTeardown;
  }

  // ----- without a client -----

  /** An owned handler's worker has no usable client. */
  ghost predicate Offline(s: State) {
    && s.owns && (s.task.client == None || (s.task.pc.FinalDisconnect? && s.task.cancelled))
    && !s.task.pc.Getting? && !s.task.pc.Sending? && !s.task.pc.Disconnecting?
  }

  lemma OfflineStep(s: State, a: Action)
    requires Offline(s) && Enabled(s, a) && !a.ConnectOk? && !CutTeardown(s, a)
    ensures var t := Apply(s, a);
      && Offline(t) && t.past.dequeued == s.past.dequeued && t.past.sends == s.past.sends
      && (!a.Discard? ==> s.queue.items <= t.queue.items)
  {
    hide NextDelay;
  }

  /**
   * A failed connect never takes a record out of the queue: from a worker without a client, as long as no
   * connect succeeds and no teardown is cut off -- over every number of failures, cancellations and restarts --
   * nothing is dequeued or sent, and without a final clearing every queued record stays queued.
   */
  lemma {:induction false} FailedConnectsKeepRecords(s: State, acts: seq<Action>)
    requires Offline(s) && IsRun(s, acts) && CleanTeardowns(s, acts)
    requires forall k | 0 <= k < |acts| :: !acts[k].ConnectOk?
    ensures var t := Exec(s, acts);
      && Offline(t) && t.past.dequeued == s.past.dequeued && t.past.sends == s.past.sends
      && ((forall k | 0 <= k < |acts| :: !acts[k].Discard?) ==> s.queue.items <= t.queue.items)
  {
    hide IsRun, Exec, CleanTeardowns, Enabled, Apply, CutTeardown, Offline;
    if acts == [] {
      NoSteps(s);
    } else {
      var before := acts[..|acts| - 1];
      RunLast(s, acts);
      CleanLast(s, acts);
      FailedConnectsKeepRecords(s, before);
      OfflineStep(Exec(s, before), acts[|acts| - 1]);
    }
  }

  // ----- sends on clients told to disconnect -----

  lemma UnstartedUsable()
    ensures Initial(true).owns && UsableClient(Initial(true).task, Initial(true).past)
  {
  }

  /** The client in use was never told to disconnect; an ended or unstarted worker holds none of its own. */
  ghost predicate UsableClient(t: Task, h: History) {
    && (t.client.Some? && (t.pc.LoopHead? || t.pc.Getting? || t.pc.Sending?) ==> t.client.value !in h.attempted)
    && (t.pc.Ended? || t.pc.NotStarted? ==> t.client == None)
  }

  lemma UsableClientKept(s: State, a: Action)
    requires Inv(s) && s.owns && UsableClient(s.task, s.past) && Enabled(s, a) && !CutTeardown(s, a)
    ensures var t := Apply(s, a); t.owns && UsableClient(t.task, t.past)
  {
    hide NextDelay, RecordsOk, CutOffsOk, BackoffOk, ExitOk;
  }

  /**
   * In every run without that cancellation, restarts included, no record is sent on a client that was
   * already told to disconnect, and an ended worker left no client behind.
   */
  lemma {:induction false} NoSendOnReleasedClient(acts: seq<Action>)
    requires IsRun(Initial(true), acts) && CleanTeardowns(Initial(true), acts)
    ensures var t := Exec(Initial(true), acts); t.owns && UsableClient(t.task, t.past)
  {
    hide IsRun, Exec, CleanTeardowns, Inv, UsableClient, Enabled, Apply, CutTeardown;
    if acts == [] {
      NoSteps(Initial(true));
      UnstartedUsable();
    } else {
      var before := acts[..|acts| - 1];
      RunLast(Initial(true), acts);
      CleanLast(Initial(true), acts);
      NoSendOnReleasedClient(before);
      RunKeepsInv(true, before);
      UsableClientKept(Exec(Initial(true), before), acts[|acts| - 1]);
    }
  }

  // ----- and that condition is exact -----

  lemma DiscardsAll(s: State) returns (acts: seq<Action>)
    requires s.task.pc.Ended?
    ensures IsRun(s, acts) && forall k | 0 <= k < |acts| :: acts[k].Discard?
    ensures var t := Exec(s, acts);
      t.queue.items == [] && t.task == s.task && t.owns == s.owns && t.past == s.past.(removed := t.past.removed)
    decreases |s.queue.items|
  {
    hide IsRun, Exec;
    if s.queue.items == [] {
      acts := [];
      NoSteps(s);
    } else {
      var rest := DiscardsAll(Apply(s, Discard));
      RunCons(s, Discard, rest);
      acts := [Discard] + rest;
    }
  }

  /** A new worker that finds a client in place sends its first record on it. */
  lemma StartsSending(s: State, r: LogRecord) returns (acts: seq<Action>)
    requires s.task.pc.Ended? && !s.task.running && s.queue.items == [] && s.task.client.Some?
    ensures IsRun(s, acts) && (forall k | 0 <= k < |acts| :: !acts[k].ConnectOk?)
    ensures Exec(s, acts).past.sends == s.past.sends + [Send(r, s.task.client.value)]
  {
    hide IsRun, Exec, NextDelay;
    var s1 := Apply(s, Start);
    var s2 := Apply(s1, Put(r));
    var s3 := Apply(s2, LoopTest);
    NoSteps(Apply(s3, GetRecord));
    RunCons(s3, GetRecord, []);
    RunCons(s2, LoopTest, [GetRecord] + []);
    RunCons(s1, Put(r), [LoopTest] + ([GetRecord] + []));
    RunCons(s, Start, [Put(r)] + ([LoopTest] + ([GetRecord] + [])));
    acts := [Start] + ([Put(r)] + ([LoopTest] + ([GetRecord] + [])));
  }

  /**
   * Wherever a run meets that cancellation, it can go on -- without any further connect -- to a send on the client that
   * was told to disconnect: with the reference left in place, the next worker does not connect.
   */
  lemma CutTeardownReuses(s: State, r: LogRecord) returns (acts: seq<Action>)
    requires Reachable(s) && CutTeardown(s, Cancel(false))
    ensures IsRun(s, acts) && (forall k | 0 <= k < |acts| :: !acts[k].ConnectOk?)
    ensures var c := s.task.client.value;
      Exec(s, acts).past.sends == s.past.sends + [Send(r, c)] && c in s.past.attempted
  {
    ReachableInv(s);
    assert s.task.client.value in s.past.attempted;
    hide IsRun, Exec, ClientOk, RecordsOk, CutOffsOk, BackoffOk, ExitOk;
    var s1 := Apply(s, Cancel(false));
    var s2 := Apply(s1, ClearRunning);
    var discards := DiscardsAll(s2);
    var starts := StartsSending(Exec(s2, discards), r);
    RunConcat(s2, discards, starts);
    RunCons(s1, ClearRunning, discards + starts);
    RunCons(s, Cancel(false), [ClearRunning] + (discards + starts));
    acts := [Cancel(false)] + ([ClearRunning] + (discards + starts));
  }

  lemma CleanMore(s: State, acts: seq<Action>, a: Action)
    requires IsRun(s, acts) && CleanTeardowns(s, acts) && Enabled(Exec(s, acts), a) && !CutTeardown(Exec(s, acts), a)
    ensures IsRun(s, acts + [a]) && CleanTeardowns(s, acts + [a]) && Exec(s, acts + [a]) == Apply(Exec(s, acts), a)
  {
    hide Enabled, Apply, CutTeardown;
    RunSnoc(s, acts, a);
    assert (acts + [a])[..|acts|] == acts;
  }

  /** A run without a connect that returned, which comes there: a connect and the disconnect behind it are both cut off. */
  lemma CutTwiceHappens()
    ensures var acts := [Start, LoopTest, Cancel(false)];
      IsRun(Initial(true), acts) && CleanTeardowns(Initial(true), acts) && CutTeardown(Exec(Initial(true), acts), Cancel(false))
  {
    hide IsRun, Exec, CleanTeardowns, NextDelay;
    var s := Initial(true);
    NoSteps(s);
    NothingCut(s);
    CleanMore(s, [], Start);
    CleanMore(s, [] + [Start], LoopTest);
    CleanMore(s, [] + [Start] + [LoopTest], Cancel(false));
    assert [] + [Start] + [LoopTest] + [Cancel(false)] == [Start, LoopTest, Cancel(false)];
  }

  lemma NothingCut(s: State)
    ensures IsRun(s, []) && CleanTeardowns(s, [])
  {
  }

  /** A worker told to stop while idle, and cancelled inside its final `disconnect()`. */
  const CONNECTS: seq<Action> := [Start, LoopTest, ConnectOk]
  const STOPS_CUT: seq<Action> := [ClearRunning, GetTimeout, LoopTest, Cancel(false)]
  const CUT_TEARDOWN: seq<Action> := CONNECTS + STOPS_CUT

  function ConnectedIdle(): State {
    State(true, Task(Getting, true, false, Some(1), CONNECT_RETRY_BASE), Queue([], 0),
          History([], [], [], [], [], 0, 1, [1], [], []))
  }

  lemma Connects()
    ensures IsRun(Initial(true), CONNECTS) && Exec(Initial(true), CONNECTS) == ConnectedIdle()
  {
    hide IsRun, Exec, NextDelay;
    var s0 := Initial(true);
    var s1 := Apply(s0, Start);
    var s2 := Apply(s1, LoopTest);
    NoSteps(Apply(s2, ConnectOk));
    RunCons(s2, ConnectOk, []);
    RunCons(s1, LoopTest, [ConnectOk] + []);
    RunCons(s0, Start, [LoopTest] + ([ConnectOk] + []));
    assert [Start] + ([LoopTest] + ([ConnectOk] + [])) == CONNECTS;
  }

  lemma StopsCut()
    ensures IsRun(ConnectedIdle(), STOPS_CUT)
    ensures var t := Exec(ConnectedIdle(), STOPS_CUT);
      t.task.pc.Ended? && t.task.client == Some(1) && !t.task.running
      && t.past == ConnectedIdle().past.(attempted := [1]) && t.queue == Queue([], 0) && t.owns
  {
    hide IsRun, Exec, NextDelay;
    var s0 := ConnectedIdle();
    var s1 := Apply(s0, ClearRunning);
    var s2 := Apply(s1, GetTimeout);
    var s3 := Apply(s2, LoopTest);
    NoSteps(Apply(s3, Cancel(false)));
    RunCons(s3, Cancel(false), []);
    RunCons(s2, LoopTest, [Cancel(false)] + []);
    RunCons(s1, GetTimeout, [LoopTest] + ([Cancel(false)] + []));
    RunCons(s0, ClearRunning, [GetTimeout] + ([LoopTest] + ([Cancel(false)] + [])));
    assert [ClearRunning] + ([GetTimeout] + ([LoopTest] + ([Cancel(false)] + []))) == STOPS_CUT;
  }

  /** It is left with the client it was disconnecting... */
  lemma TeardownCanLeaveClient()
    ensures IsRun(Initial(true), CUT_TEARDOWN)
    ensures var t := Exec(Initial(true), CUT_TEARDOWN);
      t.task.pc.Ended? && t.task.client == Some(1) && t.past.attempted == [1]
      && t.queue == Queue([], 0) && !t.task.running && t.past.sends == [] && t.past.connectCalls == 1 && t.owns
  {
    hide IsRun, Exec;
    Connects();
    StopsCut();
    RunConcat(Initial(true), CONNECTS, STOPS_CUT);
  }

  /** ...and the next worker sends on that client without connecting. */
  lemma NextWorkerSendsOnIt(r: LogRecord)
    ensures var acts := CUT_TEARDOWN + [Start, Put(r), LoopTest, GetRecord];
      IsRun(Initial(true), acts) && Exec(Initial(true), acts).past.sends == [Send(r, 1)]
      && Exec(Initial(true), acts).past.connectCalls == 1 && Exec(Initial(true), acts).past.attempted == [1]
  {
    hide IsRun, Exec, NextDelay;
    TeardownCanLeaveClient();
    var s0 := Exec(Initial(true), CUT_TEARDOWN);
    var s1 := Apply(s0, Start);
    var s2 := Apply(s1, Put(r));
    var s3 := Apply(s2, LoopTest);
    NoSteps(Apply(s3, GetRecord));
    RunCons(s3, GetRecord, []);
    RunCons(s2, LoopTest, [GetRecord] + []);
    RunCons(s1, Put(r), [LoopTest] + ([GetRecord] + []));
    RunCons(s0, Start, [Put(r)] + ([LoopTest] + ([GetRecord] + [])));
    assert [Start] + ([Put(r)] + ([LoopTest] + ([GetRecord] + []))) == [Start, Put(r), LoopTest, GetRecord];
    RunConcat(Initial(true), CUT_TEARDOWN, [Start, Put(r), LoopTest, GetRecord]);
  }
}
