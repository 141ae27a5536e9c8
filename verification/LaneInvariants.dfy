// What every step of a lane keeps.
module LaneInvariants {
  import opened Basics
  import opened Decisions
  import opened LaneMachine

  // ---- counting places ----

  datatype Class = InPatch | HoldsSlot | Live

  predicate Member(p: Place, c: Class) {
    match c
    case InPatch => p.Patching?
    case HoldsSlot => p.Holding? || p.Patching? || p.Settled?
    case Live => p.Waiting? || p.Holding? || p.Patching? || p.Settled? || p.Leaving?
  }

  function Count(place: seq<Place>, c: Class): nat {
    if place == [] then 0
    else Count(place[..|place| - 1], c) + (if Member(place[|place| - 1], c) then 1 else 0)
  }

  lemma {:induction false} CountPut(place: seq<Place>, t: nat, p: Place, c: Class)
    requires t < |place|
    ensures Count(place[t := p], c)
         == Count(place, c) - (if Member(place[t], c) then 1 else 0) + (if Member(p, c) then 1 else 0)
  {
    var n := |place| - 1;
    if t < n {
      CountPut(place[..n], t, p, c);
      assert place[t := p][..n] == place[..n][t := p];
    } else {
      assert place[t := p][..n] == place[..n];
    }
  }

  lemma {:induction false} CountLe(place: seq<Place>, c: Class, d: Class)
    requires forall p :: Member(p, c) ==> Member(p, d)
    ensures Count(place, c) <= Count(place, d)
  {
    if place != [] { CountLe(place[..|place| - 1], c, d); }
  }

  // ---- the completion log ----

  // Length of the run of failures that ends the completions of one key.
  function TrailingFailures(done: seq<Completion>, k: Key): nat {
    if done == [] then 0
    else
      var last := done[|done| - 1];
      if last.key != k then TrailingFailures(done[..|done| - 1], k)
      else if last.ok then 0
      else 1 + TrailingFailures(done[..|done| - 1], k)
  }

  // The sink call a completion deserves, with its attempts argument.
  function Escalation(cfg: Config, done: seq<Completion>, e: nat): Option<nat>
    requires e < |done|
  {
    var run := TrailingFailures(done[..e + 1], done[e].key);
    if cfg.hasSink && !done[e].ok && run >= cfg.maxFailures then Some(run) else None
  }

  lemma EscalationStable(cfg: Config, done: seq<Completion>, c: Completion, e: nat)
    requires e < |done|
    ensures Escalation(cfg, done + [c], e) == Escalation(cfg, done, e)
  {
    assert (done + [c])[..e + 1] == done[..e + 1];
  }

  lemma {:induction false} EscalationLast(cfg: Config, done: seq<Completion>, c: Completion)
    ensures var run := if c.ok then 0 else 1 + TrailingFailures(done, c.key);
      Escalation(cfg, done + [c], |done|)
      == if cfg.hasSink && !c.ok && run >= cfg.maxFailures then Some(run) else None
  {
    assert (done + [c])[..|done| + 1] == done + [c] && (done + [c])[..|done|] == done;
  }

  // ---- the invariant ----

  predicate WasDrained(p: Place) { !p.Superseded? && !p.Pending? }

  predicate WasCalled(p: Place) {
    p.Patching? || p.Settled? || (p.Leaving? && p.how.Resolved?) || (p.Gone? && p.how.Resolved?)
  }

  predicate WasSettled(p: Place) { WasCalled(p) && !p.Patching? }

  function EntryOf(p: Place): nat
    requires WasSettled(p)
  {
    if p.Settled? then p.entry else p.how.entry
  }

  function KeyAt(s: Lane, t: Ticket): Key
    requires t < |s.accepted|
  {
    s.accepted[t].KeyOf()
  }

  ghost predicate Shape(s: Lane) {
    && |s.place| == |s.accepted| == |s.writtenAt|
    && (forall t :: 0 <= t < |s.accepted| ==> s.accepted[t].namespace == s.ns)
    && (forall t :: 0 <= t < |s.writtenAt| ==> s.writtenAt[t] <= s.clock)
  }

  ghost predicate PendingOk(s: Lane)
    requires Shape(s)
  {
    && (forall k :: k in s.pending ==>
          && s.pending[k] < |s.accepted| && s.place[s.pending[k]] == Pending
          && KeyAt(s, s.pending[k]) == k)
    && (forall t :: 0 <= t < |s.place| && s.place[t] == Pending ==>
          KeyAt(s, t) in s.pending && s.pending[KeyAt(s, t)] == t)
    && (forall t :: 0 <= t < |s.place| && s.place[t].Superseded? ==>
          t < s.place[t].winner < |s.place| && KeyAt(s, s.place[t].winner) == KeyAt(s, t))
  }

  ghost predicate SlowOnly(s: Lane)
    requires Shape(s) && PendingOk(s)
  {
    forall k :: k in s.pending ==> s.accepted[s.pending[k]].desiredMinScale != 1
  }

  ghost predicate BatchesOk(s: Lane)
    requires Shape(s)
  {
    && (forall b :: 0 <= b < |s.batches| ==> s.batches[b].next <= |s.batches[b].items|)
    && (forall b, i :: 0 <= b < |s.batches| && s.batches[b].next <= i < |s.batches[b].items| ==>
          s.batches[b].items[i] < |s.place| && s.place[s.batches[b].items[i]] == Drained(b, i))
    && (forall t :: 0 <= t < |s.place| && s.place[t].Drained? ==>
          var b, i := s.place[t].batch, s.place[t].index;
          b < |s.batches| && s.batches[b].next <= i < |s.batches[b].items| && s.batches[b].items[i] == t)
  }

  // Everything that left the queue is in the drain log, and nothing else is.
  ghost predicate DrainsOk(s: Lane)
    requires Shape(s)
  {
    && (forall i :: 0 <= i < |s.drains| ==> s.drains[i] < |s.place| && WasDrained(s.place[s.drains[i]]))
    && (forall t :: 0 <= t < |s.place| && WasDrained(s.place[t]) ==> t in s.drains)
  }

  // Per key, tickets leave in acceptance order and before the one now pending.
  ghost predicate DrainOrderOk(s: Lane)
    requires Shape(s) && DrainsOk(s)
  {
    && (forall i, j :: 0 <= i < j < |s.drains| && KeyAt(s, s.drains[i]) == KeyAt(s, s.drains[j]) ==>
          s.drains[i] < s.drains[j])
    && (forall i :: 0 <= i < |s.drains| && KeyAt(s, s.drains[i]) in s.pending ==>
          s.drains[i] < s.pending[KeyAt(s, s.drains[i])])
  }

  ghost predicate CallsOk(s: Lane)
    requires Shape(s)
  {
    && NoDup(s.calls)
    && (forall i :: 0 <= i < |s.calls| ==> s.calls[i] < |s.place| && WasCalled(s.place[s.calls[i]]))
    && (forall t :: 0 <= t < |s.place| && WasCalled(s.place[t]) ==> t in s.calls)
  }

  ghost predicate DoneOk(s: Lane)
    requires Shape(s)
  {
    && (forall i :: 0 <= i < |s.done| ==>
          && s.done[i].ticket < |s.place| && WasSettled(s.place[s.done[i].ticket])
          && EntryOf(s.place[s.done[i].ticket]) == i
          && s.done[i].key == KeyAt(s, s.done[i].ticket))
    && (forall t :: 0 <= t < |s.place| && WasSettled(s.place[t]) ==>
          EntryOf(s.place[t]) < |s.done| && s.done[EntryOf(s.place[t])].ticket == t)
  }

  ghost predicate CountsOk(cfg: Config, s: Lane) {
    && s.inflight == Count(s.place, InPatch)
    && (if cfg.maxInFlight > 0 then s.slots == Count(s.place, HoldsSlot) <= cfg.maxInFlight else s.slots == 0)
  }

  ghost predicate TimerOk(cfg: Config, s: Lane)
    requires Shape(s) && PendingOk(s)
  {
    && (forall id :: id in s.timers ==> id < s.nextTimer)
    && (s.timer.Some? ==>
          && s.timer.value in s.timers
          && s.timers[s.timer.value].deadline <= s.clock + cfg.window
          && forall k :: !s.timerStopRan && k in s.pending ==>
               s.timers[s.timer.value].deadline <= s.writtenAt[s.pending[k]] + cfg.window)
    && (!s.timerStopRan && s.pending != map[] ==> s.timer.Some?)
  }

  ghost predicate FailuresOk(s: Lane) {
    forall k :: FailuresOf(s.failures, k) == TrailingFailures(s.done, k)
  }

  ghost predicate DueOk(cfg: Config, s: Lane) {
    forall e :: 0 <= e < |s.done| ==> s.done[e].due == Escalation(cfg, s.done, e)
  }

  ghost predicate SinkDue(p: Place) { p.Settled? && p.due.Some? }

  // A due sink call is the one its completion deserves.
  ghost predicate SinksDue(s: Lane)
    requires Shape(s) && DoneOk(s)
  {
    forall t :: 0 <= t < |s.place| && SinkDue(s.place[t]) ==> s.done[s.place[t].entry].due == s.place[t].due
  }

  // So is every one that was made, once.
  ghost predicate SinksMade(s: Lane)
    requires Shape(s) && DoneOk(s)
  {
    && (forall j :: 0 <= j < |s.sinks| ==>
          && s.sinks[j].entry < |s.done|
          && s.done[s.sinks[j].entry].ticket == s.sinks[j].ticket
          && s.done[s.sinks[j].entry].due == Some(s.sinks[j].attempts)
          && !SinkDue(s.place[s.sinks[j].ticket]))
    && (forall i, j :: 0 <= i < j < |s.sinks| ==> s.sinks[i].ticket != s.sinks[j].ticket)
  }

  // None is missing.
  ghost predicate SinksComplete(s: Lane)
    requires Shape(s) && DoneOk(s)
  {
    forall e :: 0 <= e < |s.done| && s.done[e].due.Some? && !SinkDue(s.place[s.done[e].ticket]) ==>
      SinkCall(e, s.done[e].ticket, s.done[e].due.value) in s.sinks
  }

  ghost predicate SinksOk(s: Lane)
    requires Shape(s) && DoneOk(s)
  {
    SinksDue(s) && SinksMade(s) && SinksComplete(s)
  }

  // The parts of the invariant that a half-done enqueue already satisfies.
  ghost predicate Loose(cfg: Config, s: Lane) {
    && Shape(s) && PendingOk(s) && BatchesOk(s) && DrainsOk(s) && DrainOrderOk(s) && CallsOk(s) && DoneOk(s)
    && CountsOk(cfg, s) && FailuresOk(s) && DueOk(cfg, s) && SinksOk(s)
  }

  ghost predicate Inv(cfg: Config, s: Lane) {
    Loose(cfg, s) && SlowOnly(s) && TimerOk(cfg, s)
  }

  lemma NewLaneInv(cfg: Config, ns: string, now: int)
    requires cfg.maxInFlight != 0
    ensures Inv(cfg, NewLane(ns, now))
  {
  }

  // ---- Write ----

  lemma WriteKeepsShape(s: Lane, d: Decision, now: int)
    requires Shape(s) && PendingOk(s) && d.namespace == s.ns && s.clock <= now
    ensures Shape(Write(s, d, now))
  {
  }

  lemma WriteKeepsPending(s: Lane, d: Decision, now: int)
    requires Shape(s) && PendingOk(s) && d.namespace == s.ns && s.clock <= now
    ensures var w := Write(s, d, now); Shape(w) && PendingOk(w)
  {
    WriteKeepsShape(s, d, now);
    var w := Write(s, d, now);
    assert w.place[|s.place|] == Pending;
  }

  lemma WriteKeepsBatches(s: Lane, d: Decision, now: int)
    requires Shape(s) && PendingOk(s) && BatchesOk(s) && d.namespace == s.ns && s.clock <= now
    ensures var w := Write(s, d, now); Shape(w) && BatchesOk(w)
  {
  }

  lemma WriteKeepsDrains(s: Lane, d: Decision, now: int)
    requires Shape(s) && PendingOk(s) && DrainsOk(s) && d.namespace == s.ns && s.clock <= now
    ensures var w := Write(s, d, now); Shape(w) && DrainsOk(w)
  {
  }

  lemma WriteKeepsDrainOrder(s: Lane, d: Decision, now: int)
    requires Shape(s) && DrainsOk(s) && DrainOrderOk(s)
    requires var w := Write(s, d, now); Shape(w) && DrainsOk(w)
    ensures DrainOrderOk(Write(s, d, now))
  {
  }

  // ---- Drain ----

  lemma TicketsOnce(s: Lane, order: seq<Key>)
    requires Shape(s) && PendingOk(s) && IsOrder(s.pending, order)
    ensures var ts := Tickets(s.pending, order);
      && NoDup(ts)
      && (forall i :: 0 <= i < |ts| ==> ts[i] < |s.place| && KeyAt(s, ts[i]) == order[i])
      && (forall t :: 0 <= t < |s.place| ==> (t in ts <==> s.place[t] == Pending))
  {
    var ts := Tickets(s.pending, order);
    forall t | 0 <= t < |s.place| && s.place[t] == Pending
      ensures t in ts
    {
      var k := KeyAt(s, t);
      assert order[IndexOf(order, k)] == k;
      assert ts[IndexOf(order, k)] == t;
    }
  }

  // The tickets `ts` are exactly the pending ones, and move to batch b in this order.
  ghost predicate Batched(before: seq<Place>, after: seq<Place>, ts: seq<Ticket>, b: nat) {
    && |after| == |before|
    && (forall i :: 0 <= i < |ts| ==>
          ts[i] < |before| && before[ts[i]] == Pending && after[ts[i]] == Drained(b, i))
    && (forall t :: 0 <= t < |before| && before[t] != Pending ==> after[t] == before[t])
    && (forall t :: 0 <= t < |before| && before[t] == Pending ==>
          after[t].Drained? && after[t].batch == b && after[t].index < |ts| && ts[after[t].index] == t)
  }

  lemma MoveToBatchEffect(place: seq<Place>, ts: seq<Ticket>, b: nat)
    requires NoDup(ts) && (forall i :: 0 <= i < |ts| ==> ts[i] < |place|)
    requires forall t :: 0 <= t < |place| ==> (t in ts <==> place[t] == Pending)
    ensures Batched(place, MoveToBatch(place, ts, b), ts, b)
  {
    forall i | 0 <= i < |ts|
      ensures place[ts[i]] == Pending && MoveToBatch(place, ts, b)[ts[i]] == Drained(b, i)
    {
      assert ts[i] in ts;
      assert IndexOf(ts, ts[i]) == i;
    }
  }

  // What a non-empty drain does, without the order bookkeeping.
  ghost predicate DrainsTo(s: Lane, w: Lane, ts: seq<Ticket>)
    requires Shape(s)
  {
    && w.ns == s.ns && w.accepted == s.accepted && w.writtenAt == s.writtenAt && w.clock == s.clock
    && w.calls == s.calls && w.done == s.done && w.sinks == s.sinks
    && w.pending == map[] && w.drains == s.drains + ts && w.batches == s.batches + [Batch(ts, 0)]
    && Batched(s.place, w.place, ts, |s.batches|)
    && (forall i, j :: 0 <= i < j < |ts| ==> KeyAt(s, ts[i]) != KeyAt(s, ts[j]))
  }

  lemma DrainEffect(s: Lane, order: seq<Key>) returns (ts: seq<Ticket>)
    requires Shape(s) && PendingOk(s) && IsOrder(s.pending, order) && s.pending != map[]
    ensures DrainsTo(s, Drain(s, order), ts)
  {
    TicketsOnce(s, order);
    ts := Tickets(s.pending, order);
    MoveToBatchEffect(s.place, ts, |s.batches|);
  }

  lemma DrainKeepsPending(s: Lane, w: Lane, ts: seq<Ticket>)
    requires Shape(s) && PendingOk(s) && DrainsTo(s, w, ts)
    ensures Shape(w) && PendingOk(w)
  {
  }

  lemma DrainKeepsBatches(s: Lane, w: Lane, ts: seq<Ticket>)
    requires Shape(s) && PendingOk(s) && BatchesOk(s) && DrainsTo(s, w, ts) && Shape(w)
    ensures BatchesOk(w)
  {
  }

  lemma DrainLogs(s: Lane, w: Lane, ts: seq<Ticket>)
    requires Shape(s) && DrainsOk(s) && DrainsTo(s, w, ts) && Shape(w)
    ensures forall i :: 0 <= i < |w.drains| ==> w.drains[i] < |w.place| && WasDrained(w.place[w.drains[i]])
  {
    forall i | 0 <= i < |w.drains|
      ensures w.drains[i] < |w.place| && WasDrained(w.place[w.drains[i]])
    {
      if i < |s.drains| { assert w.drains[i] == s.drains[i]; } else { assert w.drains[i] == ts[i - |s.drains|]; }
    }
  }

  lemma DrainKeepsDrains(s: Lane, w: Lane, ts: seq<Ticket>)
    requires Shape(s) && DrainsOk(s) && DrainsTo(s, w, ts) && Shape(w)
    ensures DrainsOk(w)
  {
    DrainLogs(s, w, ts);
    forall t | 0 <= t < |w.place| && WasDrained(w.place[t])
      ensures t in w.drains
    {
      if WasDrained(s.place[t]) { assert t in s.drains; } else { assert ts[w.place[t].index] == t; }
    }
  }

  lemma DrainKeepsDrainOrder(s: Lane, w: Lane, ts: seq<Ticket>)
    requires Shape(s) && PendingOk(s) && DrainsOk(s) && DrainOrderOk(s)
    requires DrainsTo(s, w, ts) && Shape(w) && DrainsOk(w)
    ensures DrainOrderOk(w)
  {
  }

  // ---- steps that leave the workers alone ----

  predicate Busy(p: Place) { !p.Superseded? && !p.Pending? && !p.Drained? }

  ghost predicate SameWorkers(s: Lane, w: Lane) {
    && w.done == s.done && w.sinks == s.sinks && w.calls == s.calls && w.failures == s.failures
    && w.inflight == s.inflight && w.slots == s.slots
    && s.accepted <= w.accepted && |s.place| <= |w.place|
    && (forall t :: 0 <= t < |s.place| && (Busy(s.place[t]) || Busy(w.place[t])) ==> w.place[t] == s.place[t])
    && (forall t :: |s.place| <= t < |w.place| ==> !Busy(w.place[t]))
  }

  lemma {:induction false} SameCounts(a: seq<Place>, b: seq<Place>, c: Class)
    requires |a| <= |b|
    requires forall t :: 0 <= t < |a| && (Busy(a[t]) || Busy(b[t])) ==> b[t] == a[t]
    requires forall t :: |a| <= t < |b| ==> !Busy(b[t])
    ensures Count(a, c) == Count(b, c)
  {
    if |a| < |b| { SameCounts(a, b[..|b| - 1], c); }
    else if a != [] { SameCounts(a[..|a| - 1], b[..|b| - 1], c); }
  }

  lemma WriteSameWorkers(s: Lane, d: Decision, now: int)
    requires Shape(s) && PendingOk(s)
    ensures SameWorkers(s, Write(s, d, now))
  {
  }

  lemma DrainSameWorkers(s: Lane, order: seq<Key>, ts: seq<Ticket>)
    requires Shape(s) && IsOrder(s.pending, order) && s.pending != map[] && DrainsTo(s, Drain(s, order), ts)
    ensures SameWorkers(s, Drain(s, order))
  {
  }

  lemma SameWorkersKeepLogs(s: Lane, w: Lane)
    requires Shape(s) && CallsOk(s) && DoneOk(s) && SinksOk(s) && SameWorkers(s, w) && Shape(w)
    ensures CallsOk(w) && DoneOk(w) && SinksOk(w)
  {
    assert forall t :: 0 <= t < |w.place| && WasCalled(w.place[t]) ==> t < |s.place| && w.place[t] == s.place[t];
    assert forall t :: 0 <= t < |s.accepted| ==> w.accepted[t] == s.accepted[t];
  }

  lemma SameWorkersKeepCounts(cfg: Config, s: Lane, w: Lane)
    requires CountsOk(cfg, s) && FailuresOk(s) && DueOk(cfg, s) && SameWorkers(s, w)
    ensures CountsOk(cfg, w) && FailuresOk(w) && DueOk(cfg, w)
    ensures Count(w.place, Live) == Count(s.place, Live)
  {
    SameCounts(s.place, w.place, InPatch);
    SameCounts(s.place, w.place, HoldsSlot);
    SameCounts(s.place, w.place, Live);
  }

  // ---- worker steps: one drained ticket moves on ----

  predicate WorkerStep(step: Step) {
    step.Acquire? || step.GiveUp? || step.Begin? || step.End? || step.Sink? || step.Release? || step.Exit?
  }

  ghost predicate MovesOn(s: Lane, w: Lane, t: Ticket) {
    && w.ns == s.ns && w.accepted == s.accepted && w.writtenAt == s.writtenAt && w.clock == s.clock
    && w.pending == s.pending && w.drains == s.drains && w.batches == s.batches
    && w.timer == s.timer && w.timers == s.timers && w.nextTimer == s.nextTimer && w.timerStopRan == s.timerStopRan
    && t < |s.place| && |w.place| == |s.place|
    && (forall i :: 0 <= i < |s.place| && i != t ==> w.place[i] == s.place[i])
    && WasDrained(s.place[t]) && WasDrained(w.place[t]) && !s.place[t].Drained? && !w.place[t].Drained?
  }

  lemma WorkerMovesOn(cfg: Config, s: Lane, step: Step)
    requires Enabled(cfg, s, step) && WorkerStep(step)
    ensures MovesOn(s, Apply(cfg, s, step), step.t)
  {
  }

  // The window reads the queue and its timers.
  lemma QueueReader(cfg: Config, s: Lane, w: Lane)
    requires Shape(s) && PendingOk(s) && SlowOnly(s) && TimerOk(cfg, s) && Shape(w) && PendingOk(w)
    requires w.pending == s.pending && w.accepted == s.accepted && w.writtenAt == s.writtenAt && w.clock == s.clock
    requires w.timer == s.timer && w.timers == s.timers
    requires w.nextTimer == s.nextTimer && w.timerStopRan == s.timerStopRan
    ensures SlowOnly(w) && TimerOk(cfg, w)
  {
    hide Shape;
  }

  lemma MoveKeepsPending(s: Lane, w: Lane, t: Ticket)
    requires Shape(s) && PendingOk(s) && MovesOn(s, w, t)
    ensures Shape(w) && PendingOk(w)
  {
  }

  lemma MoveKeepsQueue(cfg: Config, s: Lane, w: Lane, t: Ticket)
    requires Shape(s) && PendingOk(s) && SlowOnly(s) && TimerOk(cfg, s) && MovesOn(s, w, t)
    ensures Shape(w) && PendingOk(w) && SlowOnly(w) && TimerOk(cfg, w)
  {
    MoveKeepsPending(s, w, t);
    QueueReader(cfg, s, w);
    hide Shape, PendingOk, SlowOnly, TimerOk;
  }

  lemma MoveKeepsDrains(s: Lane, w: Lane, t: Ticket)
    requires Shape(s) && BatchesOk(s) && DrainsOk(s) && DrainOrderOk(s) && MovesOn(s, w, t) && Shape(w)
    ensures BatchesOk(w) && DrainsOk(w) && DrainOrderOk(w)
  {
  }

  lemma BeginKeepsCalls(cfg: Config, s: Lane, t: Ticket)
    requires Shape(s) && CallsOk(s) && Enabled(cfg, s, Begin(t)) && Shape(Apply(cfg, s, Begin(t)))
    ensures CallsOk(Apply(cfg, s, Begin(t)))
  {
    var w := Apply(cfg, s, Begin(t));
    assert w.calls == s.calls + [t] && w.calls[|s.calls|] == t;
  }

  lemma QuietKeepsCalls(s: Lane, w: Lane)
    requires Shape(s) && CallsOk(s) && Shape(w) && w.calls == s.calls && |w.place| == |s.place|
    requires forall u :: 0 <= u < |s.place| ==> WasCalled(w.place[u]) == WasCalled(s.place[u])
    ensures CallsOk(w)
  {
    hide NoDup;
  }

  lemma WorkerKeepsCalls(cfg: Config, s: Lane, step: Step)
    requires Shape(s) && CallsOk(s) && Enabled(cfg, s, step) && WorkerStep(step) && Shape(Apply(cfg, s, step))
    ensures CallsOk(Apply(cfg, s, step))
  {
    if step.Begin? {
      BeginKeepsCalls(cfg, s, step.t);
    } else {
      QuietKeepsCalls(s, Apply(cfg, s, step));
    }
    hide CallsOk, Shape;
  }

  lemma EndKeepsDone(cfg: Config, s: Lane, t: Ticket, ok: bool)
    requires Shape(s) && DoneOk(s) && At(s, t, Patching)
    ensures var w := Settle(cfg, s, t, ok); Shape(w) && DoneOk(w)
  {
  }

  // The steps that record no result keep every result where it was.
  lemma WorkerKeepsDone(cfg: Config, s: Lane, step: Step)
    requires Shape(s) && DoneOk(s) && Enabled(cfg, s, step) && WorkerStep(step) && Shape(Apply(cfg, s, step))
    ensures DoneOk(Apply(cfg, s, step))
  {
    hide DoneOk, KeyAt;
    if step.End? {
      EndKeepsDone(cfg, s, step.t, step.ok);
    } else {
      QuietStep(cfg, s, step);
      hide Shape, Enabled;
      QuietKeepsDone(s, Apply(cfg, s, step));
    }
  }

  // Only the end of a Patch call settles a decision.
  lemma QuietStep(cfg: Config, s: Lane, step: Step)
    requires Shape(s) && Enabled(cfg, s, step) && WorkerStep(step) && !step.End? && Shape(Apply(cfg, s, step))
    ensures var w := Apply(cfg, s, step);
      && w.done == s.done && w.accepted == s.accepted
      && forall u :: 0 <= u < |s.place| ==>
           WasSettled(w.place[u]) == WasSettled(s.place[u])
           && (WasSettled(s.place[u]) ==> EntryOf(w.place[u]) == EntryOf(s.place[u]))
  {
  }

  lemma QuietKeepsDone(s: Lane, w: Lane)
    requires Shape(s) && DoneOk(s) && Shape(w) && w.done == s.done && w.accepted == s.accepted
    requires forall u :: 0 <= u < |s.place| ==>
      WasSettled(w.place[u]) == WasSettled(s.place[u])
      && (WasSettled(s.place[u]) ==> EntryOf(w.place[u]) == EntryOf(s.place[u]))
    ensures DoneOk(w)
  {
  }

  lemma WorkerKeepsCounts(cfg: Config, s: Lane, step: Step)
    requires Enabled(cfg, s, step) && WorkerStep(step) && CountsOk(cfg, s)
    ensures CountsOk(cfg, Apply(cfg, s, step))
  {
    var p := Apply(cfg, s, step).place[step.t];
    CountPut(s.place, step.t, p, InPatch);
    CountPut(s.place, step.t, p, HoldsSlot);
  }

  lemma WorkerKeepsFailures(cfg: Config, s: Lane, step: Step)
    requires Enabled(cfg, s, step) && WorkerStep(step) && FailuresOk(s)
    ensures FailuresOk(Apply(cfg, s, step))
  {
    if step.End? {
      var w := Apply(cfg, s, step);
      assert w.done[..|w.done| - 1] == s.done;
      forall k
        ensures FailuresOf(w.failures, k) == TrailingFailures(w.done, k)
      {
        assert FailuresOf(s.failures, k) == TrailingFailures(s.done, k);
      }
    }
  }

  lemma EndKeepsDue(cfg: Config, s: Lane, t: Ticket, ok: bool)
    requires DueOk(cfg, s) && FailuresOk(s) && At(s, t, Patching)
    ensures DueOk(cfg, Settle(cfg, s, t, ok))
  {
    hide Escalation, TrailingFailures;
    var c := Settle(cfg, s, t, ok).done[|s.done|];
    assert FailuresOf(s.failures, c.key) == TrailingFailures(s.done, c.key);
    EscalationLast(cfg, s.done, c);
    forall e | 0 <= e < |s.done|
      ensures Escalation(cfg, s.done + [c], e) == Escalation(cfg, s.done, e)
    {
      EscalationStable(cfg, s.done, c, e);
    }
  }

  lemma WorkerKeepsDue(cfg: Config, s: Lane, step: Step)
    requires DueOk(cfg, s) && FailuresOk(s) && Enabled(cfg, s, step) && WorkerStep(step)
    ensures DueOk(cfg, Apply(cfg, s, step))
  {
    if step.End? {
      EndKeepsDue(cfg, s, step.t, step.ok);
      hide DueOk, Settle;
    } else {
      hide Escalation;
    }
  }

  lemma EndKeepsSinks(cfg: Config, s: Lane, t: Ticket, ok: bool)
    requires Shape(s) && DoneOk(s) && SinksOk(s) && At(s, t, Patching)
    requires var w := Settle(cfg, s, t, ok); Shape(w) && DoneOk(w)
    ensures SinksOk(Settle(cfg, s, t, ok))
  {
    var w := Settle(cfg, s, t, ok);
    assert w.done[|s.done|].due == w.place[t].due && w.place[t].entry == |s.done|;
    assert forall e :: 0 <= e < |s.done| ==> w.done[e] == s.done[e] && w.done[e].ticket != t;
  }

  lemma WorkerKeepsSinks(cfg: Config, s: Lane, step: Step)
    requires Shape(s) && DoneOk(s) && SinksOk(s)
    requires Enabled(cfg, s, step) && WorkerStep(step)
    requires Shape(Apply(cfg, s, step)) && DoneOk(Apply(cfg, s, step))
    ensures SinksOk(Apply(cfg, s, step))
  {
    var w := Apply(cfg, s, step);
    if step.End? {
      EndKeepsSinks(cfg, s, step.t, step.ok);
    } else if step.Sink? {
      SinkKeepsSinks(cfg, s, step.t);
    } else {
      assert forall u :: 0 <= u < |s.place| ==>
        SinkDue(w.place[u]) == SinkDue(s.place[u]) && (SinkDue(s.place[u]) ==> w.place[u] == s.place[u]);
      QuietKeepsSinks(s, w);
    }
    hide Shape, DoneOk, SinksOk;
  }

  lemma SinkMakes(cfg: Config, s: Lane, t: Ticket)
    requires Shape(s) && DoneOk(s) && SinksDue(s) && SinksMade(s) && Enabled(cfg, s, Sink(t))
    requires var w := Apply(cfg, s, Sink(t)); Shape(w) && DoneOk(w)
    ensures SinksMade(Apply(cfg, s, Sink(t)))
  {
    var w := Apply(cfg, s, Sink(t));
    var c := SinkCall(s.place[t].entry, t, s.place[t].due.value);
    assert w.sinks == s.sinks + [c] && w.sinks[|s.sinks|] == c;
    assert s.done[c.entry].ticket == t;
  }

  lemma SinkCompletes(cfg: Config, s: Lane, t: Ticket)
    requires Shape(s) && DoneOk(s) && SinksDue(s) && SinksComplete(s) && Enabled(cfg, s, Sink(t))
    requires var w := Apply(cfg, s, Sink(t)); Shape(w) && DoneOk(w)
    ensures SinksComplete(Apply(cfg, s, Sink(t)))
  {
    var w := Apply(cfg, s, Sink(t));
    var c := SinkCall(s.place[t].entry, t, s.place[t].due.value);
    assert w.sinks == s.sinks + [c] && w.sinks[|s.sinks|] == c;
    assert forall e :: 0 <= e < |s.done| && s.done[e].ticket == t ==> e == c.entry;
  }

  lemma SinkKeepsSinks(cfg: Config, s: Lane, t: Ticket)
    requires Shape(s) && DoneOk(s) && SinksOk(s) && Enabled(cfg, s, Sink(t))
    requires var w := Apply(cfg, s, Sink(t)); Shape(w) && DoneOk(w)
    ensures SinksOk(Apply(cfg, s, Sink(t)))
  {
    SinkMakes(cfg, s, t);
    SinkCompletes(cfg, s, t);
    hide SinksMade, SinksComplete, DoneOk, Shape;
  }

  lemma QuietKeepsSinks(s: Lane, w: Lane)
    requires Shape(s) && DoneOk(s) && SinksOk(s) && Shape(w) && DoneOk(w)
    requires w.sinks == s.sinks && w.done == s.done && |w.place| == |s.place|
    requires forall u :: 0 <= u < |s.place| ==>
      SinkDue(w.place[u]) == SinkDue(s.place[u]) && (SinkDue(s.place[u]) ==> w.place[u] == s.place[u])
    ensures SinksOk(w)
  {
  }

  // ---- Spawn ----

  lemma SpawnKeepsPending(cfg: Config, s: Lane, b: nat)
    requires Shape(s) && PendingOk(s) && BatchesOk(s) && Enabled(cfg, s, Spawn(b))
    ensures var w := Apply(cfg, s, Spawn(b)); Shape(w) && PendingOk(w)
  {
  }

  lemma SpawnKeepsQueue(cfg: Config, s: Lane, b: nat)
    requires Shape(s) && PendingOk(s) && SlowOnly(s) && BatchesOk(s) && TimerOk(cfg, s) && Enabled(cfg, s, Spawn(b))
    ensures var w := Apply(cfg, s, Spawn(b));
      Shape(w) && PendingOk(w) && SlowOnly(w) && TimerOk(cfg, w)
  {
    SpawnKeepsPending(cfg, s, b);
    QueueReader(cfg, s, Apply(cfg, s, Spawn(b)));
    hide Shape, PendingOk, SlowOnly, TimerOk, BatchesOk;
  }

  lemma SpawnShape(cfg: Config, s: Lane, b: nat)
    requires Shape(s) && BatchesOk(s) && Enabled(cfg, s, Spawn(b))
    ensures Shape(Apply(cfg, s, Spawn(b)))
  {
    hide BatchesOk;
  }

  // The tickets that stay in their dispatch loops.
  lemma SpawnLoops(cfg: Config, s: Lane, b: nat)
    requires Shape(s) && BatchesOk(s) && Enabled(cfg, s, Spawn(b))
    ensures var w := Apply(cfg, s, Spawn(b));
      forall c, i :: 0 <= c < |w.batches| && w.batches[c].next <= i < |w.batches[c].items| ==>
        w.batches[c].items[i] < |w.place| && w.place[w.batches[c].items[i]] == Drained(c, i)
  {
    var w := Apply(cfg, s, Spawn(b));
    var t := s.batches[b].items[s.batches[b].next];
    assert s.place[t] == Drained(b, s.batches[b].next);
    forall c, i | 0 <= c < |w.batches| && w.batches[c].next <= i < |w.batches[c].items|
      ensures w.batches[c].items[i] < |w.place| && w.place[w.batches[c].items[i]] == Drained(c, i)
    {
      assert s.batches[c].items[i] == w.batches[c].items[i] && s.place[s.batches[c].items[i]] == Drained(c, i);
    }
  }

  lemma SpawnKeepsBatches(cfg: Config, s: Lane, b: nat)
    requires Shape(s) && BatchesOk(s) && Enabled(cfg, s, Spawn(b))
    ensures var w := Apply(cfg, s, Spawn(b)); Shape(w) && BatchesOk(w)
  {
    SpawnShape(cfg, s, b);
    SpawnLoops(cfg, s, b);
    var w := Apply(cfg, s, Spawn(b));
    forall t | 0 <= t < |w.place| && w.place[t].Drained?
      ensures var c, i := w.place[t].batch, w.place[t].index;
        c < |w.batches| && w.batches[c].next <= i < |w.batches[c].items| && w.batches[c].items[i] == t
    {
      assert w.place[t] == s.place[t] && t != s.batches[b].items[s.batches[b].next];
    }
  }

  lemma SpawnKeepsDrains(cfg: Config, s: Lane, b: nat)
    requires Shape(s) && BatchesOk(s) && DrainsOk(s) && DrainOrderOk(s) && Enabled(cfg, s, Spawn(b))
    ensures var w := Apply(cfg, s, Spawn(b)); Shape(w) && DrainsOk(w) && DrainOrderOk(w)
  {
    var w := Apply(cfg, s, Spawn(b));
    assert forall t :: 0 <= t < |s.place| ==> WasDrained(w.place[t]) == WasDrained(s.place[t]);
  }

  lemma SpawnKeepsLogs(cfg: Config, s: Lane, b: nat)
    requires Shape(s) && BatchesOk(s) && CallsOk(s) && DoneOk(s) && SinksOk(s) && Enabled(cfg, s, Spawn(b))
    ensures var w := Apply(cfg, s, Spawn(b)); Shape(w) && CallsOk(w) && DoneOk(w) && SinksOk(w)
  {
    SpawnFromDrained(cfg, s, b);
    var w := Apply(cfg, s, Spawn(b));
    assert forall t :: 0 <= t < |s.place| ==>
      WasCalled(w.place[t]) == WasCalled(s.place[t]) && (WasCalled(s.place[t]) ==> w.place[t] == s.place[t]);
    hide BatchesOk;
  }

  lemma SpawnStep(cfg: Config, s: Lane, b: nat)
    requires Inv(cfg, s) && Enabled(cfg, s, Spawn(b))
    ensures Inv(cfg, Apply(cfg, s, Spawn(b)))
    ensures Count(Apply(cfg, s, Spawn(b)).place, Live) == Count(s.place, Live) + 1
  {
    SpawnKeepsQueue(cfg, s, b);
    SpawnKeepsBatches(cfg, s, b);
    SpawnKeepsDrains(cfg, s, b);
    SpawnKeepsLogs(cfg, s, b);
    var t := s.batches[b].items[s.batches[b].next];
    CountPut(s.place, t, Waiting, InPatch);
    CountPut(s.place, t, Waiting, HoldsSlot);
    CountPut(s.place, t, Waiting, Live);
    SpawnFromDrained(cfg, s, b);
    hide Shape, PendingOk, SlowOnly, BatchesOk, DrainsOk, DrainOrderOk, CallsOk, DoneOk, SinksOk, TimerOk, FailuresOk;
    hide DueOk, Count;
  }

  lemma SpawnFromDrained(cfg: Config, s: Lane, b: nat)
    requires Shape(s) && BatchesOk(s) && Enabled(cfg, s, Spawn(b))
    ensures s.place[s.batches[b].items[s.batches[b].next]].Drained?
  {
  }

  // ---- every step ----

  // What no step changes, and what only one kind of step changes.
  ghost predicate SameIdentity(s: Lane, w: Lane) {
    w.ns == s.ns && w.timerStopRan == s.timerStopRan && w.calls == s.calls
  }

  lemma DrainKeepsIdentity(s: Lane, order: seq<Key>)
    requires IsOrder(s.pending, order)
    ensures SameIdentity(s, Drain(s, order))
  {
  }

  predicate Abandoned(p: Place) { (p.Leaving? || p.Gone?) && p.how.Cancelled? }

  ghost predicate NoneAbandoned(s: Lane) { forall t :: 0 <= t < |s.place| ==> !Abandoned(s.place[t]) }

  // Only a worker that sees the context done abandons its decision.
  lemma OnlyGiveUpAbandons(cfg: Config, s: Lane, step: Step)
    requires Enabled(cfg, s, step) && NoneAbandoned(s) && !step.GiveUp?
    ensures NoneAbandoned(Apply(cfg, s, step))
  {
    match step
    case Enqueue(d, now, order) =>
      WriteAbandonsNone(s, d, now);
      if d.desiredMinScale == 1 { DrainAbandonsNone(Write(s, d, now), order); }
    case Flush(id, order) => DrainAbandonsNone(s.(timers := s.timers - {id}), order);
    case _ =>
    hide Drain, Write, IsOrder;
  }

  lemma WriteAbandonsNone(s: Lane, d: Decision, now: int)
    requires NoneAbandoned(s)
    ensures NoneAbandoned(Write(s, d, now))
  {
  }

  lemma DrainAbandonsNone(s: Lane, order: seq<Key>)
    requires IsOrder(s.pending, order) && NoneAbandoned(s)
    ensures NoneAbandoned(Drain(s, order))
  {
  }

  lemma StepKeepsIdentity(cfg: Config, s: Lane, step: Step)
    requires Enabled(cfg, s, step)
    ensures var w := Apply(cfg, s, step);
      && w.ns == s.ns
      && (!step.StopTimer? ==> w.timerStopRan == s.timerStopRan)
      && (!step.Begin? ==> w.calls == s.calls)
  {
    match step
    case Enqueue(d, now, order) =>
      if d.desiredMinScale == 1 { DrainKeepsIdentity(Write(s, d, now), order); }
    case Flush(id, order) => DrainKeepsIdentity(s.(timers := s.timers - {id}), order);
    case _ =>
    hide Drain, IsOrder;
  }

  lemma WorkerLeaves(cfg: Config, s: Lane, step: Step)
    requires Enabled(cfg, s, step) && WorkerStep(step)
    ensures Count(Apply(cfg, s, step).place, Live) == Count(s.place, Live) - (if step.Exit? then 1 else 0)
  {
    CountPut(s.place, step.t, Apply(cfg, s, step).place[step.t], Live);
  }

  lemma WorkerStepInv(cfg: Config, s: Lane, step: Step)
    requires Inv(cfg, s) && Enabled(cfg, s, step) && WorkerStep(step)
    ensures Inv(cfg, Apply(cfg, s, step))
    ensures Count(Apply(cfg, s, step).place, Live) == Count(s.place, Live) - (if step.Exit? then 1 else 0)
  {
    hide Shape, PendingOk, SlowOnly, BatchesOk, DrainsOk, DrainOrderOk, CallsOk, DoneOk, SinksOk, CountsOk, TimerOk;
    hide FailuresOk, DueOk;
    hide Count, Apply, Enabled;
    var w := Apply(cfg, s, step);
    WorkerMovesOn(cfg, s, step);
    MoveKeepsQueue(cfg, s, w, step.t);
    MoveKeepsDrains(s, w, step.t);
    WorkerKeepsCalls(cfg, s, step);
    WorkerKeepsDone(cfg, s, step);
    WorkerKeepsCounts(cfg, s, step);
    WorkerKeepsFailures(cfg, s, step);
    WorkerKeepsDue(cfg, s, step);
    WorkerKeepsSinks(cfg, s, step);
    WorkerLeaves(cfg, s, step);
  }

  lemma WriteLoose(cfg: Config, s: Lane, d: Decision, now: int)
    requires Inv(cfg, s) && d.namespace == s.ns && s.clock <= now
    ensures Loose(cfg, Write(s, d, now))
    ensures Count(Write(s, d, now).place, Live) == Count(s.place, Live)
  {
    var w := Write(s, d, now);
    WriteKeepsPending(s, d, now);
    WriteKeepsBatches(s, d, now);
    WriteKeepsDrains(s, d, now);
    WriteKeepsDrainOrder(s, d, now);
    WriteSameWorkers(s, d, now);
    SameWorkersKeepLogs(s, w);
    SameWorkersKeepCounts(cfg, s, w);
    hide Shape, PendingOk, SlowOnly, BatchesOk, DrainsOk, DrainOrderOk, CallsOk, DoneOk, SinksOk;
    hide CountsOk, TimerOk, FailuresOk, DueOk, Count;
  }

  lemma DrainedLoose(cfg: Config, s: Lane, w: Lane, ts: seq<Ticket>)
    requires Loose(cfg, s) && DrainsTo(s, w, ts) && SameWorkers(s, w)
    ensures Loose(cfg, w) && Count(w.place, Live) == Count(s.place, Live)
  {
    DrainKeepsPending(s, w, ts);
    DrainKeepsBatches(s, w, ts);
    DrainKeepsDrains(s, w, ts);
    DrainKeepsDrainOrder(s, w, ts);
    SameWorkersKeepLogs(s, w);
    SameWorkersKeepCounts(cfg, s, w);
    hide Shape, PendingOk, SlowOnly, BatchesOk, DrainsOk, DrainOrderOk, CallsOk, DoneOk, SinksOk;
    hide CountsOk, TimerOk, FailuresOk, DueOk, Count;
  }

  // Only the timers and the clock differ.
  ghost predicate Retimed(s: Lane, w: Lane) {
    && s.clock <= w.clock
    && w == s.(timer := w.timer, timers := w.timers, nextTimer := w.nextTimer,
               clock := w.clock, timerStopRan := w.timerStopRan)
  }

  lemma RetimedQueue(s: Lane, w: Lane)
    requires Retimed(s, w) && Shape(s) && PendingOk(s) && BatchesOk(s)
    ensures Shape(w) && PendingOk(w) && BatchesOk(w)
  {
  }

  lemma RetimedDrains(s: Lane, w: Lane)
    requires Retimed(s, w) && Shape(s) && DrainsOk(s) && DrainOrderOk(s) && Shape(w)
    ensures DrainsOk(w) && DrainOrderOk(w)
  {
  }

  lemma RetimedLogs(s: Lane, w: Lane)
    requires Retimed(s, w) && Shape(s) && CallsOk(s) && DoneOk(s) && SinksOk(s) && Shape(w)
    ensures CallsOk(w) && DoneOk(w) && SinksOk(w)
  {
  }

  lemma RetimedLoose(cfg: Config, s: Lane, w: Lane)
    requires Loose(cfg, s) && Retimed(s, w)
    ensures Loose(cfg, w)
  {
    RetimedQueue(s, w);
    RetimedDrains(s, w);
    RetimedLogs(s, w);
    hide Shape, PendingOk, BatchesOk, DrainsOk, DrainOrderOk, CallsOk, DoneOk, SinksOk;
  }

  lemma DrainLoose(cfg: Config, s: Lane, order: seq<Key>)
    requires Loose(cfg, s) && IsOrder(s.pending, order)
    ensures Loose(cfg, Drain(s, order)) && Drain(s, order).pending == map[] && Drain(s, order).timer == None
    ensures Count(Drain(s, order).place, Live) == Count(s.place, Live)
  {
    hide Shape, PendingOk, SlowOnly, BatchesOk, DrainsOk, DrainOrderOk, CallsOk, DoneOk, SinksOk;
    hide CountsOk, TimerOk, FailuresOk, DueOk, Count;
    if s.pending == map[] {
      RetimedLoose(cfg, s, Drain(s, order));
    } else {
      var ts := DrainEffect(s, order);
      DrainSameWorkers(s, order, ts);
      DrainedLoose(cfg, s, Drain(s, order), ts);
    }
  }

  lemma DrainTimers(s: Lane, order: seq<Key>)
    requires IsOrder(s.pending, order)
    ensures Drain(s, order).nextTimer == s.nextTimer
    ensures forall id :: id in Drain(s, order).timers ==> id in s.timers
  {
  }

  lemma EmptyQueueTimer(cfg: Config, s: Lane)
    requires Shape(s) && PendingOk(s) && s.pending == map[] && s.timer == None
    requires forall id :: id in s.timers ==> id < s.nextTimer
    ensures SlowOnly(s) && TimerOk(cfg, s)
  {
  }

  lemma FastEnqueueStep(cfg: Config, s: Lane, d: Decision, now: int, order: seq<Key>)
    requires Inv(cfg, s) && Enabled(cfg, s, Enqueue(d, now, order)) && d.desiredMinScale == 1
    ensures var w := Apply(cfg, s, Enqueue(d, now, order));
      Inv(cfg, w) && Count(w.place, Live) == Count(s.place, Live)
  {
    var q := Write(s, d, now);
    WriteLoose(cfg, s, d, now);
    DrainLoose(cfg, q, order);
    DrainTimers(q, order);
    EmptyQueueTimer(cfg, Drain(q, order));
  }

  // A decision joins the window that is open, or opens one.
  lemma ArmTimer(cfg: Config, s: Lane, d: Decision, now: int)
    requires Shape(s) && PendingOk(s) && SlowOnly(s) && TimerOk(cfg, s) && d.namespace == s.ns && s.clock <= now
    requires d.desiredMinScale != 1
    requires var w := Arm(cfg, Write(s, d, now)); Shape(w) && PendingOk(w)
    ensures var w := Arm(cfg, Write(s, d, now)); SlowOnly(w) && TimerOk(cfg, w)
  {
    SlowStays(cfg, s, d, now);
    hide SlowOnly;
  }

  lemma SlowStays(cfg: Config, s: Lane, d: Decision, now: int)
    requires Shape(s) && PendingOk(s) && SlowOnly(s) && d.desiredMinScale != 1
    requires var w := Arm(cfg, Write(s, d, now)); Shape(w) && PendingOk(w)
    ensures SlowOnly(Arm(cfg, Write(s, d, now)))
  {
    var w := Arm(cfg, Write(s, d, now));
    assert w.accepted == s.accepted + [d] && w.pending == s.pending[d.KeyOf() := |s.accepted|];
    hide Write, Arm, KeyAt;
  }

  lemma SlowEnqueueStep(cfg: Config, s: Lane, d: Decision, now: int, order: seq<Key>)
    requires Inv(cfg, s) && Enabled(cfg, s, Enqueue(d, now, order)) && d.desiredMinScale != 1
    ensures var w := Apply(cfg, s, Enqueue(d, now, order));
      Inv(cfg, w) && Count(w.place, Live) == Count(s.place, Live)
  {
    hide Shape, PendingOk, SlowOnly, BatchesOk, DrainsOk, DrainOrderOk, CallsOk, DoneOk, SinksOk;
    hide CountsOk, TimerOk, FailuresOk, DueOk, Count;
    var q := Write(s, d, now);
    WriteLoose(cfg, s, d, now);
    RetimedLoose(cfg, q, Arm(cfg, q));
    ArmTimer(cfg, s, d, now);
  }

  lemma FlushStep(cfg: Config, s: Lane, id: TimerId, order: seq<Key>)
    requires Inv(cfg, s) && Enabled(cfg, s, Flush(id, order))
    ensures var w := Apply(cfg, s, Flush(id, order));
      Inv(cfg, w) && Count(w.place, Live) == Count(s.place, Live)
  {
    var q := s.(timers := s.timers - {id});
    RetimedLoose(cfg, s, q);
    DrainLoose(cfg, q, order);
    DrainTimers(q, order);
    EmptyQueueTimer(cfg, Drain(q, order));
  }

  lemma TimerEvent(cfg: Config, s: Lane, step: Step)
    requires Shape(s) && PendingOk(s) && SlowOnly(s) && TimerOk(cfg, s)
    requires Enabled(cfg, s, step) && (step.Fire? || step.StopTimer?)
    ensures var w := Apply(cfg, s, step); Shape(w) && PendingOk(w) && SlowOnly(w) && TimerOk(cfg, w)
  {
    if step.Fire? {
      FireKeepsTimer(cfg, s, step.id, step.now);
    } else {
      StopKeepsTimer(cfg, s);
    }
    hide Shape, PendingOk, SlowOnly, TimerOk;
  }

  lemma FireKeepsTimer(cfg: Config, s: Lane, id: TimerId, now: int)
    requires Shape(s) && PendingOk(s) && SlowOnly(s) && TimerOk(cfg, s) && Enabled(cfg, s, Fire(id, now))
    ensures var w := Apply(cfg, s, Fire(id, now)); Shape(w) && PendingOk(w) && SlowOnly(w) && TimerOk(cfg, w)
  {
  }

  lemma StopKeepsTimer(cfg: Config, s: Lane)
    requires Shape(s) && PendingOk(s) && SlowOnly(s) && TimerOk(cfg, s)
    ensures var w := Apply(cfg, s, StopTimer); Shape(w) && PendingOk(w) && SlowOnly(w) && TimerOk(cfg, w)
  {
  }

  lemma TimerEventStep(cfg: Config, s: Lane, step: Step)
    requires Inv(cfg, s) && Enabled(cfg, s, step) && (step.Fire? || step.StopTimer?)
    ensures Inv(cfg, Apply(cfg, s, step)) && Apply(cfg, s, step).place == s.place
  {
    var w := Apply(cfg, s, step);
    RetimedLoose(cfg, s, w);
    TimerEvent(cfg, s, step);
  }

  // How the number of live workers changes with a step.
  function LiveDelta(step: Step): int {
    if step.Spawn? then 1 else if step.Exit? then -1 else 0
  }

  lemma StepInv(cfg: Config, s: Lane, step: Step)
    requires Inv(cfg, s) && Enabled(cfg, s, step)
    ensures Inv(cfg, Apply(cfg, s, step))
    ensures Count(Apply(cfg, s, step).place, Live) == Count(s.place, Live) + LiveDelta(step)
  {
    if WorkerStep(step) {
      WorkerStepInv(cfg, s, step);
    } else {
      match step
      case Enqueue(d, now, order) =>
        if d.desiredMinScale == 1 {
          FastEnqueueStep(cfg, s, d, now, order);
        } else {
          SlowEnqueueStep(cfg, s, d, now, order);
        }
      case Flush(id, order) => FlushStep(cfg, s, id, order);
      case Spawn(b) => SpawnStep(cfg, s, b);
      case Fire(_, _) => TimerEventStep(cfg, s, step);
      case StopTimer => TimerEventStep(cfg, s, step);
    }
  }
}
