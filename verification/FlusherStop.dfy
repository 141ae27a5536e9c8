// What Stop guarantees about Patch calls made after it has returned.
module FlusherStop {
  import opened Basics
  import opened Decisions
  import opened LaneMachine
  import opened LaneInvariants
  import opened ManagerMachine
  import opened FlusherTheorems

  // Nothing in the lane can still turn into a worker by itself.
  ghost predicate Drained0(l: Lane) {
    && (forall b :: 0 <= b < |l.batches| ==> |l.batches[b].items| <= l.batches[b].next)
    && (l.timers == map[] || l.pending == map[])
  }

  // No Enqueue call between its stopped check and its lane, no dispatch loop
  // with work left, and no timer or timer callback over a non-empty queue.
  ghost predicate NothingOutstanding(m: Manager) {
    m.admitted == multiset{} && forall i :: 0 <= i < |m.lanes| ==> Drained0(m.lanes[i])
  }

  ghost predicate PatchesLater(cfg: Config, m: Manager) {
    exists run, i :: LaterPatch(cfg, m, run, i)
  }

  // `run` is a continuation of m in which lane i makes a further Patch call.
  ghost predicate LaterPatch(cfg: Config, m: Manager, run: seq<MStep>, i: nat) {
    && IsRun(cfg, m, run) && i < |m.lanes| && i < |After(cfg, m, run).lanes|
    && |m.lanes[i].calls| < |After(cfg, m, run).lanes[i].calls|
  }

  // A worker that has not called Patch yet.
  predicate BeforeCall(p: Place) { p.Waiting? || p.Holding? }

  ghost predicate NoneBeforeCall(m: Manager) {
    forall i, t :: 0 <= i < |m.lanes| && 0 <= t < |m.lanes[i].place| ==> !BeforeCall(m.lanes[i].place[t])
  }

  // ---- nothing outstanding: no call ever again ----

  ghost predicate Dead(m: Manager) { m.stopped && NothingOutstanding(m) && NoneBeforeCall(m) }

  lemma DeadStep(cfg: Config, m: Manager, a: MStep)
    requires Dead(m) && MEnabled(cfg, m, a)
    ensures var w := MApply(cfg, m, a);
      && Dead(w) && |w.lanes| == |m.lanes|
      && forall i :: 0 <= i < |m.lanes| ==> w.lanes[i].calls == m.lanes[i].calls
  {
    if a.InLane? {
      assert Drained0(m.lanes[a.lane]);
      DeadLaneStep(cfg, m.lanes[a.lane], a.step);
      hide Apply, Enabled, Drained0, BeforeCall;
    } else {
      hide Apply, Enabled, BeforeCall;
    }
  }

  ghost predicate DeadLane(l: Lane) {
    Drained0(l) && forall t :: 0 <= t < |l.place| ==> !BeforeCall(l.place[t])
  }

  // Timers over an empty queue can still move, and so can workers past their call.
  lemma DeadTimerStep(cfg: Config, l: Lane, step: Step)
    requires DeadLane(l) && Enabled(cfg, l, step) && (step.Flush? || step.Fire? || step.StopTimer?)
    ensures var w := Apply(cfg, l, step); DeadLane(w) && w.calls == l.calls
  {
    hide NoDup;
  }

  lemma DeadLaneStep(cfg: Config, l: Lane, step: Step)
    requires DeadLane(l) && Enabled(cfg, l, step) && !step.Enqueue?
    ensures var w := Apply(cfg, l, step); DeadLane(w) && w.calls == l.calls
  {
    if step.Flush? || step.Fire? || step.StopTimer? {
      DeadTimerStep(cfg, l, step);
    }
  }

  lemma {:induction false} DeadRun(cfg: Config, m: Manager, run: seq<MStep>)
    requires Dead(m) && IsRun(cfg, m, run)
    ensures |After(cfg, m, run).lanes| == |m.lanes|
    ensures forall i :: 0 <= i < |m.lanes| ==> After(cfg, m, run).lanes[i].calls == m.lanes[i].calls
    decreases |run|
  {
    hide Dead, MEnabled, MApply;
    if run != [] {
      DeadStep(cfg, m, run[0]);
      DeadRun(cfg, MApply(cfg, m, run[0]), run[1..]);
    }
  }

  lemma {:induction false} NoCount(place: seq<Place>, c: Class)
    requires Count(place, c) == 0
    ensures forall t :: 0 <= t < |place| ==> !Member(place[t], c)
  {
    if place != [] { NoCount(place[..|place| - 1], c); }
  }

  lemma {:induction false} NoLiveWorkers(lanes: seq<Lane>)
    requires LiveWorkers(lanes) == 0
    ensures forall i :: 0 <= i < |lanes| ==> Count(lanes[i].place, Live) == 0
  {
    if lanes != [] {
      LiveWorkersNonNegative(lanes[..|lanes| - 1]);
      NoLiveWorkers(lanes[..|lanes| - 1]);
    }
  }

  lemma {:induction false} LiveWorkersNonNegative(lanes: seq<Lane>)
    ensures LiveWorkers(lanes) >= 0
  {
    if lanes != [] { LiveWorkersNonNegative(lanes[..|lanes| - 1]); }
  }

  // ---- something outstanding: a schedule that patches ----

  // One step, then whatever patches afterwards.
  lemma Prepend(cfg: Config, m: Manager, i: nat, step: Step)
    requires MEnabled(cfg, m, InLane(i, step)) && !step.Begin?
    requires PatchesLater(cfg, MApply(cfg, m, InLane(i, step)))
    ensures PatchesLater(cfg, m)
  {
    var w := MApply(cfg, m, InLane(i, step));
    var run, j :| LaterPatch(cfg, w, run, j);
    RunCons(cfg, m, InLane(i, step), run);
    StepKeepsIdentity(cfg, m.lanes[i], step);
    assert LaterPatch(cfg, m, [InLane(i, step)] + run, j);
  }

  lemma HoldingPatches(cfg: Config, m: Manager, i: nat, t: Ticket)
    requires i < |m.lanes| && At(m.lanes[i], t, Holding)
    ensures PatchesLater(cfg, m)
  {
    var b := InLane(i, Begin(t));
    var v := MApply(cfg, m, b);
    assert After(cfg, v, []) == v && [b][1..] == [];
    assert After(cfg, m, [b]) == v;
    assert LaterPatch(cfg, m, [b], i);
  }

  // What the slot holders past their call still have to do before they let go.
  function Weight(p: Place): nat {
    match p
    case Patching => 3
    case Settled(_, due) => if due.Some? then 2 else 1
    case _ => 0
  }

  function Work(place: seq<Place>): nat {
    if place == [] then 0 else Work(place[..|place| - 1]) + Weight(place[|place| - 1])
  }

  lemma {:induction false} WorkPut(place: seq<Place>, t: nat, p: Place)
    requires t < |place|
    ensures Work(place[t := p]) == Work(place) - Weight(place[t]) + Weight(p)
  {
    var n := |place| - 1;
    if t < n {
      WorkPut(place[..n], t, p);
      assert place[t := p][..n] == place[..n][t := p];
    } else {
      assert place[t := p][..n] == place[..n];
    }
  }

  lemma {:induction false} SomeMember(place: seq<Place>, c: Class) returns (t: nat)
    requires Count(place, c) > 0
    ensures t < |place| && Member(place[t], c)
  {
    var n := |place| - 1;
    if Member(place[n], c) { t := n; } else { t := SomeMember(place[..n], c); }
  }

  // The next step of a worker that holds a slot and is past its call.
  function LetGo(u: Ticket, p: Place): Step {
    if p.Patching? then End(u, true) else if p.Settled? && p.due.Some? then Sink(u) else Release(u)
  }

  lemma LettingGo(cfg: Config, l: Lane, u: Ticket, t: Ticket)
    requires u < |l.place| && u < |l.accepted| && At(l, t, Waiting)
    requires Member(l.place[u], HoldsSlot) && !l.place[u].Holding?
    ensures var step := LetGo(u, l.place[u]);
      && Enabled(cfg, l, step) && At(Apply(cfg, l, step), t, Waiting)
      && Work(Apply(cfg, l, step).place) < Work(l.place)
  {
    hide Work;
    var step := LetGo(u, l.place[u]);
    var w := Apply(cfg, l, step);
    assert w.place == l.place[u := w.place[u]];
    WorkPut(l.place, u, w.place[u]);
  }

  // A worker in front of the semaphore gets its slot once those inside have let go.
  lemma {:induction false} WaitingPatches(cfg: Config, m: Manager, i: nat, t: Ticket)
    requires i < |m.lanes| && Inv(cfg, m.lanes[i]) && At(m.lanes[i], t, Waiting) && cfg.maxInFlight != 0
    ensures PatchesLater(cfg, m)
    decreases Work(m.lanes[i].place)
  {
    hide Inv, PatchesLater, Work;
    var l := m.lanes[i];
    if cfg.maxInFlight < 0 || l.slots < cfg.maxInFlight {
      HoldingPatches(cfg, MApply(cfg, m, InLane(i, Acquire(t))), i, t);
      Prepend(cfg, m, i, Acquire(t));
    } else {
      var u := SlotHolder(cfg, l);
      if l.place[u].Holding? {
        HoldingPatches(cfg, m, i, u);
      } else {
        LettingGo(cfg, l, u, t);
        hide Apply, Enabled;
        var step := LetGo(u, l.place[u]);
        StepInv(cfg, l, step);
        WaitingPatches(cfg, MApply(cfg, m, InLane(i, step)), i, t);
        Prepend(cfg, m, i, step);
      }
    }
  }

  lemma SlotHolder(cfg: Config, l: Lane) returns (u: nat)
    requires Inv(cfg, l) && 0 < cfg.maxInFlight <= l.slots
    ensures u < |l.place| && u < |l.accepted| && Member(l.place[u], HoldsSlot)
  {
    u := SomeMember(l.place, HoldsSlot);
  }

  lemma UndispatchedPatches(cfg: Config, m: Manager, i: nat, b: nat)
    requires i < |m.lanes| && Inv(cfg, m.lanes[i]) && cfg.maxInFlight != 0
    requires b < |m.lanes[i].batches| && m.lanes[i].batches[b].next < |m.lanes[i].batches[b].items|
    ensures PatchesLater(cfg, m)
  {
    var l := m.lanes[i];
    var t := l.batches[b].items[l.batches[b].next];
    assert t < |l.place| && t < |l.accepted|;
    var w := MApply(cfg, m, InLane(i, Spawn(b)));
    StepInv(cfg, l, Spawn(b));
    hide PatchesLater, Inv;
    WaitingPatches(cfg, w, i, t);
    Prepend(cfg, m, i, Spawn(b));
  }

  lemma {:induction false} SomeOrder(pending: map<Key, Ticket>, keys: set<Key>) returns (order: seq<Key>)
    requires forall k :: k in keys ==> k in pending
    ensures NoDup(order) && forall k :: k in order <==> k in keys
    decreases |keys|
  {
    if keys == {} {
      order := [];
    } else {
      var k :| k in keys;
      var rest := SomeOrder(pending, keys - {k});
      order := rest + [k];
    }
  }

  lemma FiredPatches(cfg: Config, m: Manager, i: nat, id: TimerId)
    requires i < |m.lanes| && Inv(cfg, m.lanes[i]) && cfg.maxInFlight != 0
    requires id in m.lanes[i].timers && m.lanes[i].timers[id].Fired? && m.lanes[i].pending != map[]
    ensures PatchesLater(cfg, m)
  {
    hide PatchesLater, Inv;
    var l := m.lanes[i];
    var order := SomeOrder(l.pending, l.pending.Keys);
    var step := Flush(id, order);
    var w := MApply(cfg, m, InLane(i, step));
    StepInv(cfg, l, step);
    NonEmptyOrder(l.pending, order);
    UndispatchedPatches(cfg, w, i, |l.batches|);
    Prepend(cfg, m, i, step);
  }

  lemma NonEmptyOrder(pending: map<Key, Ticket>, order: seq<Key>)
    requires pending != map[] && IsOrder(pending, order)
    ensures |Tickets(pending, order)| > 0
  {
    var k :| k in pending;
    assert k in order;
  }

  function Later(a: int, b: int): int { if a < b then b else a }

  lemma TimerPatches(cfg: Config, m: Manager, i: nat, id: TimerId)
    requires i < |m.lanes| && Inv(cfg, m.lanes[i]) && cfg.maxInFlight != 0
    requires id in m.lanes[i].timers && m.lanes[i].pending != map[]
    ensures PatchesLater(cfg, m)
  {
    hide PatchesLater, Inv;
    var l := m.lanes[i];
    if l.timers[id].Fired? {
      FiredPatches(cfg, m, i, id);
    } else {
      var step := Fire(id, Later(l.clock, l.timers[id].deadline));
      StepInv(cfg, l, step);
      FiredPatches(cfg, MApply(cfg, m, InLane(i, step)), i, id);
      Prepend(cfg, m, i, step);
    }
  }

  lemma EnqueueEffect(cfg: Config, l: Lane, d: Decision, order: seq<Key>)
    requires Enabled(cfg, l, Enqueue(d, l.clock, order))
    ensures var w := Apply(cfg, l, Enqueue(d, l.clock, order));
      && if d.desiredMinScale == 1
         then |w.batches| == |l.batches| + 1 && w.batches[|l.batches|].next == 0 < |w.batches[|l.batches|].items|
         else w.timer.Some? && d.KeyOf() in w.pending
  {
    if d.desiredMinScale == 1 {
      assert d.KeyOf() in Write(l, d, l.clock).pending;
      NonEmptyOrder(Write(l, d, l.clock).pending, order);
    }
  }

  lemma AdmittedEnabled(cfg: Config, m: Manager, c: Call) returns (step: Step)
    requires MInv(cfg, m) && c in m.admitted
    ensures step.Enqueue? && step.d == c.d && step.now == m.lanes[c.lane].clock && c.lane < |m.lanes|
    ensures MEnabled(cfg, m, InLane(c.lane, step)) && Inv(cfg, Apply(cfg, m.lanes[c.lane], step))
  {
    hide Inv;
    var l := m.lanes[c.lane];
    var q := Write(l, c.d, l.clock);
    var order := SomeOrder(q.pending, q.pending.Keys);
    step := Enqueue(c.d, l.clock, order);
    StepInv(cfg, l, step);
    hide Apply;
  }

  lemma AdmittedPatches(cfg: Config, m: Manager, c: Call)
    requires MInv(cfg, m) && c in m.admitted && cfg.maxInFlight != 0
    ensures PatchesLater(cfg, m)
  {
    var i, l := c.lane, m.lanes[c.lane];
    var step := AdmittedEnabled(cfg, m, c);
    hide MInv, PatchesLater, Inv;
    EnqueueEffect(cfg, l, c.d, step.order);
    hide Apply, Enabled;
    var w := MApply(cfg, m, InLane(i, step));
    assert w.lanes[i] == Apply(cfg, l, step);
    if c.d.desiredMinScale == 1 {
      UndispatchedPatches(cfg, w, i, |l.batches|);
    } else {
      RecordedTimer(cfg, w.lanes[i]);
      TimerPatches(cfg, w, i, w.lanes[i].timer.value);
    }
    Prepend(cfg, m, i, step);
  }

  lemma RecordedTimer(cfg: Config, l: Lane)
    requires Inv(cfg, l) && l.timer.Some?
    ensures l.timer.value in l.timers
  {
  }

  // Once Stop has been called, no continuation ever calls Patch exactly when nothing
  // is outstanding and no worker stands before its call.
  lemma StoppedPatchIff(c: Config, run: seq<MStep>, m: Manager)
    requires Reaches(c, run, m) && m.stopped
    ensures !PatchesLater(WithDefaults(c), m) <==> NothingOutstanding(m) && NoneBeforeCall(m)
  {
    var cfg := WithDefaults(c);
    ReachedInv(c, run, m);
    if NothingOutstanding(m) && NoneBeforeCall(m) {
      hide MInv, NothingOutstanding, NoneBeforeCall;
      forall r, i
        ensures !LaterPatch(cfg, m, r, i)
      {
        if IsRun(cfg, m, r) { DeadRun(cfg, m, r); }
      }
    } else {
      OutstandingPatches(cfg, m);
      hide PatchesLater;
    }
  }

  lemma OutstandingPatches(cfg: Config, m: Manager)
    requires MInv(cfg, m) && cfg.maxInFlight != 0 && !(NothingOutstanding(m) && NoneBeforeCall(m))
    ensures PatchesLater(cfg, m)
  {
    hide PatchesLater, Inv, Books;
    if !NoneBeforeCall(m) {
      var i, t :| 0 <= i < |m.lanes| && 0 <= t < |m.lanes[i].place| && BeforeCall(m.lanes[i].place[t]);
      BeforeCallPatches(cfg, m, i, t);
    } else if m.admitted != multiset{} {
      var c :| c in m.admitted;
      AdmittedPatches(cfg, m, c);
    } else {
      var i :| 0 <= i < |m.lanes| && !Drained0(m.lanes[i]);
      var l := m.lanes[i];
      if b :| 0 <= b < |l.batches| && l.batches[b].next < |l.batches[b].items| {
        UndispatchedPatches(cfg, m, i, b);
      } else {
        var id :| id in l.timers;
        TimerPatches(cfg, m, i, id);
      }
    }
  }

  lemma BeforeCallPatches(cfg: Config, m: Manager, i: nat, t: Ticket)
    requires i < |m.lanes| && Inv(cfg, m.lanes[i]) && cfg.maxInFlight != 0
    requires t < |m.lanes[i].place| && BeforeCall(m.lanes[i].place[t])
    ensures PatchesLater(cfg, m)
  {
    assert t < |m.lanes[i].accepted|;
    hide PatchesLater, Inv;
    if m.lanes[i].place[t].Holding? { HoldingPatches(cfg, m, i, t); } else { WaitingPatches(cfg, m, i, t); }
  }

  // The documented promise "no Patcher invocations after Stop returns", for the Stop
  // that waits: it holds of the state in which that call returns exactly when nothing
  // is outstanding there.
  lemma NoPatchAfterStop(c: Config, run: seq<MStep>, m: Manager)
    requires Reaches(c, run, m) && m.cancelled && m.wg == 0
    ensures !PatchesLater(WithDefaults(c), m) <==> NothingOutstanding(m)
  {
    ReachedInv(c, run, m);
    NoLiveWorkers(m.lanes);
    forall i, t | 0 <= i < |m.lanes| && 0 <= t < |m.lanes[i].place|
      ensures !BeforeCall(m.lanes[i].place[t])
    {
      NoCount(m.lanes[i].place, Live);
      assert !Member(m.lanes[i].place[t], Live);
    }
    StoppedPatchIff(c, run, m);
    hide PatchesLater, NothingOutstanding, MInv, LiveWorkers;
  }

  // The promise does fail: an Enqueue that passed the stopped check before Stop
  // began still reaches its lane, and its worker may win the race with the context.
  lemma PatchCanFollowStop(c: Config) returns (run: seq<MStep>, m: Manager)
    ensures Reaches(c, run, m) && m.cancelled && m.wg == 0 && PatchesLater(WithDefaults(c), m)
  {
    var cfg := WithDefaults(c);
    var d := Decision("ns", "web", "web", 1, "probe-error");
    var m1 := MApply(cfg, NEW_MANAGER, Admit(d, 0));
    var m2 := MApply(cfg, m1, StopBegin);
    var m3 := MApply(cfg, m2, StopLane(0));
    m := MApply(cfg, m3, CancelContext);
    RunCons(cfg, m3, CancelContext, []);
    RunCons(cfg, m2, StopLane(0), [CancelContext] + []);
    RunCons(cfg, m1, StopBegin, [StopLane(0)] + ([CancelContext] + []));
    run := [Admit(d, 0)] + ([StopBegin] + ([StopLane(0)] + ([CancelContext] + [])));
    RunCons(cfg, NEW_MANAGER, Admit(d, 0), run[1..]);
    assert Call(0, d) in m.admitted;
    NoPatchAfterStop(c, run, m);
  }

  // A lane that has dispatched one fast decision.
  lemma OneWorker(cfg: Config, d: Decision) returns (l1: Lane, l2: Lane)
    requires d.desiredMinScale == 1
    ensures var l0 := NewLane(d.namespace, 0);
      var enqueue := Enqueue(d, 0, [d.KeyOf()]);
      && Enabled(cfg, l0, enqueue) && l1 == Apply(cfg, l0, enqueue)
      && Enabled(cfg, l1, Spawn(0)) && l2 == Apply(cfg, l1, Spawn(0))
    ensures l2.place == [Waiting] && l2.pending == map[] && |l2.batches| == 1
    ensures |l2.batches[0].items| == l2.batches[0].next == 1
  {
    var l0 := NewLane(d.namespace, 0);
    var k := d.KeyOf();
    var q := Write(l0, d, 0);
    assert q.pending == map[k := 0] && k in q.pending && q.place == [Pending];
    assert IsOrder(q.pending, [k]);
    l1 := Apply(cfg, l0, Enqueue(d, 0, [k]));
    assert Tickets(q.pending, [k]) == [0];
    assert IndexOf([0], 0) == 0;
    assert MoveToBatch(q.place, [0], 0) == [Drained(0, 0)];
    assert l1.batches == [Batch([0], 0)];
    l2 := Apply(cfg, l1, Spawn(0));
  }

  // A manager whose one lane has done that.
  lemma Dispatched(cfg: Config) returns (m: Manager, run: seq<MStep>)
    ensures IsRun(cfg, NEW_MANAGER, run) && After(cfg, NEW_MANAGER, run) == m
    ensures !m.stopped && !m.cancelled && m.admitted == multiset{} && |m.lanes| == 1
    ensures var l := m.lanes[0];
      l.place == [Waiting] && l.pending == map[] && |l.batches| == 1 && |l.batches[0].items| == l.batches[0].next
  {
    var d := Decision("ns", "web", "web", 1, "probe-error");
    var l1, l2 := OneWorker(cfg, d);
    hide Apply, Enabled;
    var a1, a2, a3 := Admit(d, 0), InLane(0, Enqueue(d, 0, [d.KeyOf()])), InLane(0, Spawn(0));
    var m1 := MApply(cfg, NEW_MANAGER, a1);
    var m2 := MApply(cfg, m1, a2);
    m := MApply(cfg, m2, a3);
    RunCons(cfg, m2, a3, []);
    RunCons(cfg, m1, a2, [a3] + []);
    RunCons(cfg, NEW_MANAGER, a1, [a2] + ([a3] + []));
    run := [a1] + ([a2] + ([a3] + []));
  }

  // It also fails of a further Stop call, which does not wait: the worker of a
  // dispatched decision is still before its call when that Stop returns.
  lemma PatchCanFollowSecondStop(c: Config) returns (run: seq<MStep>, m: Manager)
    ensures Reaches(c, run, m) && run != [] && run[|run| - 1] == StopAgain
    ensures m.cancelled && NothingOutstanding(m) && PatchesLater(WithDefaults(c), m)
  {
    hide IsRun, After, MApply, MEnabled, PatchesLater;
    var cfg := WithDefaults(c);
    var m3, first := Dispatched(cfg);
    var w, rest := SecondStop(cfg, m3);
    RunAppend(cfg, NEW_MANAGER, first, rest);
    m, run := w, first + rest;
    assert BeforeCall(m.lanes[0].place[0]);
    StoppedPatchIff(c, run, m);
  }

  // Stop runs to its wait over a manager with one lane, and a second Stop returns.
  lemma SecondStop(cfg: Config, m: Manager) returns (w: Manager, run: seq<MStep>)
    requires !m.stopped && !m.cancelled && |m.lanes| == 1
    ensures IsRun(cfg, m, run) && After(cfg, m, run) == w && run != [] && run[|run| - 1] == StopAgain
    ensures w.stopped && w.cancelled && w.admitted == m.admitted && |w.lanes| == 1
    ensures var l, k := m.lanes[0], w.lanes[0]; k.place == l.place && k.pending == l.pending && k.batches == l.batches
  {
    var m1 := MApply(cfg, m, StopBegin);
    var m2 := MApply(cfg, m1, StopLane(0));
    var m3 := MApply(cfg, m2, CancelContext);
    w := MApply(cfg, m3, StopAgain);
    RunCons(cfg, m3, StopAgain, []);
    RunCons(cfg, m2, CancelContext, [StopAgain] + []);
    RunCons(cfg, m1, StopLane(0), [CancelContext] + ([StopAgain] + []));
    run := [StopBegin] + ([StopLane(0)] + ([CancelContext] + ([StopAgain] + [])));
    RunCons(cfg, m, StopBegin, run[1..]);
  }
}
