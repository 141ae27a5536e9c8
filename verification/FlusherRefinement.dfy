// The coalescing queue against write-through, with the reads and writes of the
// Patch calls as steps of the schedule.
module FlusherRefinement {
  import opened Basics
  import opened Decisions
  import opened Json
  import opened MinScale
  import opened LaneMachine
  import opened LaneInvariants
  import opened ManagerMachine
  import opened FlusherTheorems

  // One Patch call.
  datatype Job = Job(lane: nat, t: Ticket)

  // How far a Patch call is: it has read a KSvc that differs, or it has had its
  // effect, which for a KSvc that is missing or already equal is none.
  datatype Phase = Reading | Effected

  // The flusher and the live KSvcs. `landed` lists the calls in the order in which
  // they had their effect.
  datatype Wired = Wired(m: Manager, live: map<Key, Json>, phase: map<Job, Phase>, landed: seq<Job>)

  datatype WStep =
    | Sched(a: MStep)
    | Get(j: Job)
    | Land(j: Job)

  // A worker is inside the Patch bracket with this call.
  ghost predicate InCall(m: Manager, j: Job) { j.lane < |m.lanes| && At(m.lanes[j.lane], j.t, Patching) }

  // A call returns without error only after its effect. One that fails may or may
  // not have had it.
  ghost predicate WEnabled(cfg: Config, w: Wired, s: WStep) {
    match s
    case Sched(a) =>
      && MEnabled(cfg, w.m, a)
      && (a.InLane? && a.step.End? && a.step.ok ==>
            Job(a.lane, a.step.t) in w.phase && w.phase[Job(a.lane, a.step.t)] == Effected)
    case Get(j) => InCall(w.m, j) && j !in w.phase
    case Land(j) => InCall(w.m, j) && j in w.phase && w.phase[j] == Reading
  }

  ghost function WApply(cfg: Config, w: Wired, s: WStep): Wired
    requires WEnabled(cfg, w, s)
  {
    match s
    case Sched(a) => w.(m := MApply(cfg, w.m, a))
    case Get(j) =>
      if UpToDate(w.live, w.m.lanes[j.lane].accepted[j.t])
      then w.(phase := w.phase[j := Effected], landed := w.landed + [j])
      else w.(phase := w.phase[j := Reading])
    case Land(j) =>
      w.(live := Merged(w.live, w.m.lanes[j.lane].accepted[j.t]),
         phase := w.phase[j := Effected], landed := w.landed + [j])
  }

  ghost predicate IsWRun(cfg: Config, w: Wired, run: seq<WStep>)
    decreases |run|
  {
    run == [] || (WEnabled(cfg, w, run[0]) && IsWRun(cfg, WApply(cfg, w, run[0]), run[1..]))
  }

  ghost function WAfter(cfg: Config, w: Wired, run: seq<WStep>): Wired
    requires IsWRun(cfg, w, run)
    decreases |run|
  {
    if run == [] then w else WAfter(cfg, WApply(cfg, w, run[0]), run[1..])
  }

  // The state of a new manager over `live` after the schedule `run`.
  ghost predicate WReaches(c: Config, live: map<Key, Json>, run: seq<WStep>, w: Wired) {
    var w0 := Wired(NEW_MANAGER, live, map[], []);
    IsWRun(WithDefaults(c), w0, run) && WAfter(WithDefaults(c), w0, run) == w
  }

  // ---- what a lane step does to tickets ----

  // Tickets only move on, and the call and completion logs grow with Begin and End.
  ghost predicate Onward(s: Lane, w: Lane, begun: set<Ticket>) {
    && s.ns == w.ns && s.accepted <= w.accepted && |s.place| <= |w.place|
    && (forall u :: 0 <= u < |s.place| && WasCalled(s.place[u]) ==> WasCalled(w.place[u]))
    && (forall u :: 0 <= u < |w.place| && w.place[u] == Patching ==>
          (u < |s.place| && s.place[u] == Patching) || u in begun)
  }

  ghost predicate Logs(s: Lane, w: Lane, step: Step) {
    match step
    case Begin(t) => w.calls == s.calls + [t] && w.done == s.done
    case End(t, ok) => w.calls == s.calls && |w.done| == |s.done| + 1 && s.done <= w.done
                       && w.done[|s.done|].ticket == t && w.done[|s.done|].ok == ok
    case _ => w.calls == s.calls && w.done == s.done
  }

  function Begun(step: Step): set<Ticket> { if step.Begin? then {step.t} else {} }

  lemma SameWorkersOnward(s: Lane, w: Lane)
    requires SameWorkers(s, w) && s.ns == w.ns
    ensures Onward(s, w, {}) && w.calls == s.calls && w.done == s.done
  {
  }

  lemma DrainOnward(s: Lane, order: seq<Key>)
    requires Shape(s) && PendingOk(s) && IsOrder(s.pending, order)
    ensures SameWorkers(s, Drain(s, order)) && Drain(s, order).ns == s.ns
  {
    DrainKeepsIdentity(s, order);
    if s.pending != map[] {
      var ts := DrainEffect(s, order);
      DrainSameWorkers(s, order, ts);
      hide Drain, SameWorkers, PendingOk;
    } else {
      hide PendingOk;
    }
  }

  lemma SameWorkersChain(s: Lane, v: Lane, w: Lane)
    requires SameWorkers(s, v) && SameWorkers(v, w)
    ensures SameWorkers(s, w)
  {
  }

  // Steps that leave the workers alone.
  lemma QueueStepOnward(cfg: Config, s: Lane, step: Step)
    requires Shape(s) && PendingOk(s) && Enabled(cfg, s, step)
    requires (step.Enqueue? || step.Flush? || step.Fire? || step.StopTimer?)
    ensures SameWorkers(s, Apply(cfg, s, step)) && Apply(cfg, s, step).ns == s.ns
  {
    StepKeepsIdentity(cfg, s, step);
    if step.Enqueue? {
      EnqueueSameWorkers(cfg, s, step.d, step.now, step.order);
    } else if step.Flush? {
      FlushSameWorkers(cfg, s, step.id, step.order);
    } else {
      TimerSameWorkers(cfg, s, step);
    }
    hide Apply, Enabled, Shape, PendingOk, SameWorkers;
  }

  lemma TimerSameWorkers(cfg: Config, s: Lane, step: Step)
    requires Enabled(cfg, s, step) && (step.Fire? || step.StopTimer?)
    ensures SameWorkers(s, Apply(cfg, s, step))
  {
  }

  lemma FlushSameWorkers(cfg: Config, s: Lane, id: TimerId, order: seq<Key>)
    requires Shape(s) && PendingOk(s) && Enabled(cfg, s, Flush(id, order))
    ensures SameWorkers(s, Apply(cfg, s, Flush(id, order)))
  {
    var q := s.(timers := s.timers - {id});
    assert SameWorkers(s, q) && Shape(q) && PendingOk(q);
    hide Drain, PendingOk, IsOrder, Shape, SameWorkers;
    DrainOnward(q, order);
    SameWorkersChain(s, q, Drain(q, order));
  }

  lemma EnqueueSameWorkers(cfg: Config, s: Lane, d: Decision, now: int, order: seq<Key>)
    requires Shape(s) && PendingOk(s) && Enabled(cfg, s, Enqueue(d, now, order))
    ensures SameWorkers(s, Apply(cfg, s, Enqueue(d, now, order)))
  {
    var q := Write(s, d, now);
    WriteSameWorkers(s, d, now);
    WriteKeepsPending(s, d, now);
    hide Write, PendingOk, Shape, Drain, IsOrder;
    if d.desiredMinScale == 1 {
      DrainOnward(q, order);
      SameWorkersChain(s, q, Drain(q, order));
    } else {
      assert SameWorkers(q, Arm(cfg, q));
      SameWorkersChain(s, q, Arm(cfg, q));
    }
    hide SameWorkers;
  }

  lemma WorkerStepOnward(cfg: Config, s: Lane, step: Step)
    requires Enabled(cfg, s, step) && (WorkerStep(step) || (step.Spawn? && Shape(s) && BatchesOk(s)))
    ensures Onward(s, Apply(cfg, s, step), Begun(step)) && Logs(s, Apply(cfg, s, step), step)
  {
    if step.Spawn? { SpawnFromDrained(cfg, s, step.b); }
  }

  lemma StepOnward(cfg: Config, s: Lane, step: Step)
    requires Inv(cfg, s) && Enabled(cfg, s, step)
    ensures Onward(s, Apply(cfg, s, step), Begun(step)) && Logs(s, Apply(cfg, s, step), step)
  {
    if step.Enqueue? || step.Flush? || step.Fire? || step.StopTimer? {
      QueueStepOnward(cfg, s, step);
      SameWorkersOnward(s, Apply(cfg, s, step));
    } else {
      WorkerStepOnward(cfg, s, step);
    }
    hide Onward, Shape, PendingOk, BatchesOk, Apply, Enabled, SameWorkers, DoneOk, CallsOk;
  }

  // ---- what a manager step does to lanes ----

  function StepIn(a: MStep, i: nat): Option<Step> {
    if a.InLane? && a.lane == i then Some(a.step) else if a.StopLane? && a.lane == i then Some(StopTimer) else None
  }

  ghost predicate LaneNext(s: Lane, w: Lane, step: Option<Step>) {
    if step.None? then w == s else Onward(s, w, Begun(step.value)) && Logs(s, w, step.value)
  }

  ghost predicate LanesNext(m: Manager, v: Manager, a: MStep) {
    && |m.lanes| <= |v.lanes|
    && (forall i :: 0 <= i < |m.lanes| ==> LaneNext(m.lanes[i], v.lanes[i], StepIn(a, i)))
    && (forall i :: |m.lanes| <= i < |v.lanes| ==> v.lanes[i].calls == [] && v.lanes[i].done == [])
  }

  lemma PutNext(m: Manager, v: Manager, a: MStep, i: nat)
    requires i < |m.lanes| && |v.lanes| == |m.lanes| && LaneNext(m.lanes[i], v.lanes[i], StepIn(a, i))
    requires forall j :: 0 <= j < |m.lanes| && j != i ==> v.lanes[j] == m.lanes[j] && StepIn(a, j).None?
    ensures LanesNext(m, v, a)
  {
    hide Onward, Logs;
  }

  lemma InLaneNext(cfg: Config, m: Manager, i: nat, step: Step)
    requires MInv(cfg, m) && MEnabled(cfg, m, InLane(i, step))
    ensures LanesNext(m, MApply(cfg, m, InLane(i, step)), InLane(i, step))
  {
    hide Inv, Onward, Logs, Apply, Enabled, Books;
    StepOnward(cfg, m.lanes[i], step);
    PutNext(m, MApply(cfg, m, InLane(i, step)), InLane(i, step), i);
    hide LanesNext;
  }

  lemma StopLaneNext(cfg: Config, m: Manager, i: nat)
    requires MInv(cfg, m) && MEnabled(cfg, m, StopLane(i))
    ensures LanesNext(m, MApply(cfg, m, StopLane(i)), StopLane(i))
  {
    hide Inv, Onward, Logs, Apply, Books;
    StepOnward(cfg, m.lanes[i], StopTimer);
    PutNext(m, MApply(cfg, m, StopLane(i)), StopLane(i), i);
    hide LanesNext;
  }

  lemma SchedNext(cfg: Config, m: Manager, a: MStep)
    requires MInv(cfg, m) && MEnabled(cfg, m, a)
    ensures LanesNext(m, MApply(cfg, m, a), a)
  {
    hide MInv, Onward, Logs, Apply, Enabled;
    match a
    case InLane(i, step) => InLaneNext(cfg, m, i, step);
    case StopLane(i) => StopLaneNext(cfg, m, i);
    case _ =>
  }

  // ---- bookkeeping of Patch calls ----

  ghost predicate Known(m: Manager, j: Job) {
    && j.lane < |m.lanes| && j.t < |m.lanes[j.lane].accepted| && j.t < |m.lanes[j.lane].place|
    && WasCalled(m.lanes[j.lane].place[j.t])
  }

  ghost predicate Effective(w: Wired, j: Job) { j in w.phase && w.phase[j] == Effected }

  ghost predicate Booked(w: Wired) {
    && (forall j :: j in w.phase ==> Known(w.m, j))
    && NoDup(w.landed)
    && (forall j :: j in w.landed <==> Effective(w, j))
    && (forall i, e :: 0 <= i < |w.m.lanes| && 0 <= e < |w.m.lanes[i].done| && w.m.lanes[i].done[e].ok ==>
          Effective(w, Job(i, w.m.lanes[i].done[e].ticket)))
  }

  lemma KnownNext(m: Manager, v: Manager, a: MStep, j: Job)
    requires LanesNext(m, v, a) && Known(m, j)
    ensures Known(v, j) && v.lanes[j.lane].accepted[j.t] == m.lanes[j.lane].accepted[j.t]
  {
    hide Logs;
    assert LaneNext(m.lanes[j.lane], v.lanes[j.lane], StepIn(a, j.lane));
  }

  lemma SchedDone(cfg: Config, w: Wired, a: MStep, v: Manager, i: nat, e: nat)
    requires Booked(w) && WEnabled(cfg, w, Sched(a)) && LanesNext(w.m, v, a)
    requires i < |v.lanes| && e < |v.lanes[i].done| && v.lanes[i].done[e].ok
    ensures Effective(w, Job(i, v.lanes[i].done[e].ticket))
  {
    hide Onward, MEnabled, Known, NoDup;
    assert i < |w.m.lanes|;
    assert LaneNext(w.m.lanes[i], v.lanes[i], StepIn(a, i));
    if e < |w.m.lanes[i].done| { assert v.lanes[i].done[e] == w.m.lanes[i].done[e]; }
  }

  lemma SchedBooked(cfg: Config, w: Wired, a: MStep)
    requires MInv(cfg, w.m) && Booked(w) && WEnabled(cfg, w, Sched(a))
    ensures Booked(WApply(cfg, w, Sched(a)))
  {
    hide MInv, Known, MEnabled, MApply, LaneNext, LanesNext;
    var v := WApply(cfg, w, Sched(a));
    SchedNext(cfg, w.m, a);
    forall j | j in v.phase
      ensures Known(v.m, j)
    {
      KnownNext(w.m, v.m, a, j);
    }
    forall i, e | 0 <= i < |v.m.lanes| && 0 <= e < |v.m.lanes[i].done| && v.m.lanes[i].done[e].ok
      ensures Effective(v, Job(i, v.m.lanes[i].done[e].ticket))
    {
      SchedDone(cfg, w, a, v.m, i, e);
    }
  }

  lemma CallBooked(cfg: Config, w: Wired, s: WStep)
    requires Booked(w) && WEnabled(cfg, w, s) && !s.Sched?
    ensures Booked(WApply(cfg, w, s))
  {
    hide Merged, UpToDate;
    assert Known(w.m, s.j);
    var v := WApply(cfg, w, s);
    assert v.landed == w.landed || v.landed == w.landed + [s.j];
    assert s.j !in w.landed;
  }

  // ---- linearization ----

  ghost function Wanted(m: Manager, j: Job): Decision
    requires Known(m, j)
  {
    m.lanes[j.lane].accepted[j.t]
  }

  ghost function Landed(m: Manager, js: seq<Job>): seq<Decision>
    requires forall i :: 0 <= i < |js| ==> Known(m, js[i])
  {
    seq(|js|, i requires 0 <= i < |js| => Wanted(m, js[i]))
  }

  ghost predicate Linear(live: map<Key, Json>, w: Wired) {
    && (forall i :: 0 <= i < |w.landed| ==> Known(w.m, w.landed[i]))
    && w.live == ApplyAll(live, Landed(w.m, w.landed))
  }

  lemma LandedKept(m: Manager, v: Manager, js: seq<Job>)
    requires forall i :: 0 <= i < |js| ==> Known(m, js[i]) && Known(v, js[i]) && Wanted(v, js[i]) == Wanted(m, js[i])
    ensures Landed(v, js) == Landed(m, js)
  {
    hide Known, Wanted;
  }

  lemma SchedLinear(cfg: Config, live: map<Key, Json>, w: Wired, a: MStep)
    requires MInv(cfg, w.m) && Linear(live, w) && WEnabled(cfg, w, Sched(a))
    ensures Linear(live, WApply(cfg, w, Sched(a)))
  {
    hide MInv, LanesNext, Known, MEnabled, MApply, ApplyAll, Landed;
    var v := WApply(cfg, w, Sched(a));
    SchedNext(cfg, w.m, a);
    forall i | 0 <= i < |w.landed|
      ensures Known(v.m, w.landed[i]) && Wanted(v.m, w.landed[i]) == Wanted(w.m, w.landed[i])
    {
      KnownNext(w.m, v.m, a, w.landed[i]);
    }
    LandedKept(w.m, v.m, w.landed);
  }

  lemma CallLinear(cfg: Config, live: map<Key, Json>, w: Wired, s: WStep)
    requires Linear(live, w) && WEnabled(cfg, w, s) && !s.Sched?
    ensures Linear(live, WApply(cfg, w, s))
  {
    var v := WApply(cfg, w, s);
    var d := w.m.lanes[s.j.lane].accepted[s.j.t];
    UpToDateIff(w.live, d);
    MergedWritesThrough(w.live, d);
    hide Merged, UpToDate, WriteThrough;
    assert Known(w.m, s.j);
    if v.landed != w.landed {
      var ds := Landed(v.m, v.landed);
      assert ds[..|ds| - 1] == Landed(w.m, w.landed) && ds[|ds| - 1] == d;
    }
  }

  ghost predicate WInv(cfg: Config, live: map<Key, Json>, w: Wired) { MInv(cfg, w.m) && Booked(w) && Linear(live, w) }

  lemma WStepInv(cfg: Config, live: map<Key, Json>, w: Wired, s: WStep)
    requires cfg.maxInFlight != 0 && WInv(cfg, live, w) && WEnabled(cfg, w, s)
    ensures WInv(cfg, live, WApply(cfg, w, s))
  {
    match s
    case Sched(a) =>
      MStepInv(cfg, w.m, a);
      SchedBooked(cfg, w, a);
      SchedLinear(cfg, live, w, a);
    case _ =>
      CallBooked(cfg, w, s);
      CallLinear(cfg, live, w, s);
    hide MInv, Booked, Linear, MEnabled, MApply, InCall;
  }

  lemma {:induction false} WRunInv(cfg: Config, live: map<Key, Json>, w: Wired, run: seq<WStep>)
    requires cfg.maxInFlight != 0 && WInv(cfg, live, w) && IsWRun(cfg, w, run)
    ensures WInv(cfg, live, WAfter(cfg, w, run))
    decreases |run|
  {
    hide WInv, WEnabled, WApply;
    if run != [] {
      WStepInv(cfg, live, w, run[0]);
      WRunInv(cfg, live, WApply(cfg, w, run[0]), run[1..]);
    }
  }

  lemma NewInv(cfg: Config, live: map<Key, Json>)
    ensures WInv(cfg, live, Wired(NEW_MANAGER, live, map[], []))
  {
  }

  // In every state of every schedule, overlapping calls and failures included, the
  // live KSvcs are the original ones with the calls' decisions written one by one
  // in the order in which the calls took effect.
  lemma CallsAreLinear(c: Config, live: map<Key, Json>, run: seq<WStep>, w: Wired)
    requires WReaches(c, live, run, w)
    ensures (forall i :: 0 <= i < |w.landed| ==> Known(w.m, w.landed[i]))
    ensures w.live == ApplyAll(live, Landed(w.m, w.landed))
    ensures NoDup(w.landed)
  {
    NewInv(WithDefaults(c), live);
    hide MInv, IsWRun, WAfter, ApplyAll;
    WRunInv(WithDefaults(c), live, Wired(NEW_MANAGER, live, map[], []), run);
  }

  // And nothing but the min-scale annotation of any KSvc ever changes.
  lemma OnlyMinScaleChanges(c: Config, live: map<Key, Json>, run: seq<WStep>, w: Wired, k: Key, q: Path)
    requires WReaches(c, live, run, w) && k in live && !(q <= MIN_SCALE_PATH) && !(MIN_SCALE_PATH <= q)
    ensures k in w.live && Lookup(w.live[k], q) == Lookup(live[k], q)
  {
    CallsAreLinear(c, live, run, w);
    hide WReaches, ApplyAll, Lookup;
    OtherFieldsUntouched(live, Landed(w.m, w.landed), k, q);
  }

  // ---- one call of a key at a time ----

  ghost predicate LaneExclusive(l: Lane) {
    forall t, u :: 0 <= t < u < |l.place| && u < |l.accepted| && l.place[t] == Patching && l.place[u] == Patching ==>
      KeyAt(l, t) != KeyAt(l, u)
  }

  ghost predicate Exclusive(m: Manager) { forall i :: 0 <= i < |m.lanes| ==> LaneExclusive(m.lanes[i]) }

  // In no state of the schedule are two calls of one key in their Patch bracket.
  ghost predicate Serial(cfg: Config, w: Wired, run: seq<WStep>)
    requires IsWRun(cfg, w, run)
    decreases |run|
  {
    Exclusive(w.m) && (run == [] || Serial(cfg, WApply(cfg, w, run[0]), run[1..]))
  }

  // A call is over when the next one of its key has begun.
  ghost predicate CallsOver(l: Lane)
    requires Shape(l) && CallsOk(l)
  {
    forall x, y :: 0 <= x < y < |l.calls| && KeyAt(l, l.calls[x]) == KeyAt(l, l.calls[y]) ==>
      l.place[l.calls[x]] != Patching
  }

  lemma CallsOverNext(s: Lane, w: Lane, step: Step)
    requires Shape(s) && CallsOk(s) && CallsOver(s) && Shape(w) && CallsOk(w)
    requires Onward(s, w, Begun(step)) && Logs(s, w, step) && LaneExclusive(w)
    requires step.Begin? ==> step.t < |w.place| && w.place[step.t] == Patching
    ensures CallsOver(w)
  {
    forall x, y | 0 <= x < y < |w.calls| && KeyAt(w, w.calls[x]) == KeyAt(w, w.calls[y])
      ensures w.place[w.calls[x]] != Patching
    {
      if y < |s.calls| {
        assert w.calls[x] == s.calls[x] && w.calls[y] == s.calls[y];
        assert KeyAt(s, s.calls[x]) == KeyAt(s, s.calls[y]);
        assert step.Begin? ==> w.calls[x] != w.calls[|s.calls|];
      } else {
        assert w.calls[y] == step.t && w.calls[x] != w.calls[y];
      }
    }
  }

  ghost predicate LaneOver(cfg: Config, l: Lane) { Inv(cfg, l) && CallsOver(l) }

  ghost predicate AllOver(cfg: Config, m: Manager) { forall i :: 0 <= i < |m.lanes| ==> LaneOver(cfg, m.lanes[i]) }

  lemma AllOverNext(cfg: Config, m: Manager, a: MStep)
    requires MInv(cfg, m) && MEnabled(cfg, m, a) && AllOver(cfg, m)
    requires MInv(cfg, MApply(cfg, m, a)) && Exclusive(MApply(cfg, m, a))
    ensures AllOver(cfg, MApply(cfg, m, a))
  {
    hide LaneOver, Inv, LaneExclusive, MApply, MEnabled;
    var v := MApply(cfg, m, a);
    SchedNext(cfg, m, a);
    forall i | 0 <= i < |v.lanes|
      ensures LaneOver(cfg, v.lanes[i])
    {
      if i < |m.lanes| { OldLaneOver(cfg, m, a, i); } else { NewLaneOver(cfg, v.lanes[i]); }
    }
  }

  lemma NewLaneOver(cfg: Config, l: Lane)
    requires Inv(cfg, l) && l.calls == []
    ensures LaneOver(cfg, l)
  {
  }

  lemma OldLaneOver(cfg: Config, m: Manager, a: MStep, i: nat)
    requires MEnabled(cfg, m, a) && i < |m.lanes| && LaneOver(cfg, m.lanes[i]) && LanesNext(m, MApply(cfg, m, a), a)
    requires Inv(cfg, MApply(cfg, m, a).lanes[i]) && LaneExclusive(MApply(cfg, m, a).lanes[i])
    ensures LaneOver(cfg, MApply(cfg, m, a).lanes[i])
  {
    hide Inv, CallsOver, Onward, Logs, LaneExclusive;
    var v := MApply(cfg, m, a);
    assert LaneNext(m.lanes[i], v.lanes[i], StepIn(a, i));
    if StepIn(a, i).Some? {
      if StepIn(a, i).value.Begin? { BeginPatches(cfg, m, a, i); }
      LaneOverNext(cfg, m.lanes[i], v.lanes[i], StepIn(a, i).value);
    }
  }

  lemma LaneOverNext(cfg: Config, s: Lane, w: Lane, step: Step)
    requires Inv(cfg, s) && CallsOver(s) && Inv(cfg, w) && Onward(s, w, Begun(step)) && Logs(s, w, step)
    requires LaneExclusive(w)
    requires step.Begin? ==> step.t < |w.place| && w.place[step.t] == Patching
    ensures CallsOver(w)
  {
    hide CallsOver, Onward, Logs, LaneExclusive, Shape, CallsOk;
    CallsOverNext(s, w, step);
  }

  lemma BeginPatches(cfg: Config, m: Manager, a: MStep, i: nat)
    requires MEnabled(cfg, m, a) && i < |m.lanes| && StepIn(a, i).Some? && StepIn(a, i).value.Begin?
    ensures var l := MApply(cfg, m, a).lanes[i]; var t := StepIn(a, i).value.t; t < |l.place| && l.place[t] == Patching
  {
  }

  // Calls of one key take effect in the order in which they began.
  ghost predicate LandedInOrder(w: Wired)
    requires forall i :: 0 <= i < |w.landed| ==> Known(w.m, w.landed[i])
  {
    forall a, b :: 0 <= a < b < |w.landed| && w.landed[a].lane == w.landed[b].lane
                   && Wanted(w.m, w.landed[a]).KeyOf() == Wanted(w.m, w.landed[b]).KeyOf() ==>
      BeganBefore(w.m.lanes[w.landed[a].lane].calls, w.landed[a].t, w.landed[b].t)
  }

  ghost predicate BeganBefore(calls: seq<Ticket>, t: Ticket, u: Ticket) {
    forall x, y :: 0 <= x < |calls| && 0 <= y < |calls| && calls[x] == t && calls[y] == u ==> x < y
  }

  ghost predicate SInv(cfg: Config, live: map<Key, Json>, w: Wired) {
    WInv(cfg, live, w) && AllOver(cfg, w.m) && LandedInOrder(w)
  }

  // A landed call is in its lane's call log.
  lemma KnownIsCalled(cfg: Config, m: Manager, j: Job)
    requires MInv(cfg, m) && Known(m, j)
    ensures j.t in m.lanes[j.lane].calls && NoDup(m.lanes[j.lane].calls)
  {
    assert Inv(cfg, m.lanes[j.lane]);
  }

  lemma SchedInOrder(cfg: Config, live: map<Key, Json>, w: Wired, a: MStep)
    requires SInv(cfg, live, w) && WEnabled(cfg, w, Sched(a)) && WInv(cfg, live, WApply(cfg, w, Sched(a)))
    ensures LandedInOrder(WApply(cfg, w, Sched(a)))
  {
    var v := WApply(cfg, w, Sched(a));
    SchedNext(cfg, w.m, a);
    hide MInv, LanesNext, MEnabled, MApply, ApplyAll, AllOver, Booked, Landed, BeganBefore, Known;
    forall x, y | 0 <= x < y < |v.landed| && v.landed[x].lane == v.landed[y].lane
                  && Wanted(v.m, v.landed[x]).KeyOf() == Wanted(v.m, v.landed[y]).KeyOf()
      ensures BeganBefore(v.m.lanes[v.landed[x].lane].calls, v.landed[x].t, v.landed[y].t)
    {
      KnownNext(w.m, v.m, a, w.landed[x]);
      KnownNext(w.m, v.m, a, w.landed[y]);
      PairInOrder(cfg, w.m, v.m, a, w.landed[x], w.landed[y]);
    }
  }

  lemma InOrderGrows(s: seq<Ticket>, w: seq<Ticket>, t: Ticket, u: Ticket)
    requires s <= w && NoDup(w) && t in s && u in s && BeganBefore(s, t, u)
    ensures BeganBefore(w, t, u)
  {
    var x :| 0 <= x < |s| && s[x] == t;
    var y :| 0 <= y < |s| && s[y] == u;
    assert w[x] == t && w[y] == u;
  }

  lemma CallsGrow(m: Manager, v: Manager, a: MStep, i: nat)
    requires LanesNext(m, v, a) && i < |m.lanes|
    ensures m.lanes[i].calls <= v.lanes[i].calls
  {
    hide Onward;
    assert LaneNext(m.lanes[i], v.lanes[i], StepIn(a, i));
  }

  lemma PairInOrder(cfg: Config, m: Manager, v: Manager, a: MStep, j: Job, k: Job)
    requires MInv(cfg, m) && MInv(cfg, v) && LanesNext(m, v, a) && Known(m, j) && Known(m, k) && Known(v, j)
    requires j.lane == k.lane
    requires BeganBefore(m.lanes[j.lane].calls, j.t, k.t)
    ensures BeganBefore(v.lanes[j.lane].calls, j.t, k.t)
  {
    hide MInv, LanesNext, BeganBefore, NoDup;
    KnownIsCalled(cfg, m, j);
    KnownIsCalled(cfg, m, k);
    KnownIsCalled(cfg, v, j);
    CallsGrow(m, v, a, j.lane);
    InOrderGrows(m.lanes[j.lane].calls, v.lanes[j.lane].calls, j.t, k.t);
  }

  lemma CallEffect(cfg: Config, w: Wired, s: WStep)
    requires Booked(w) && WEnabled(cfg, w, s) && !s.Sched?
    ensures var v := WApply(cfg, w, s);
      && v.m == w.m && (v.landed == w.landed || v.landed == w.landed + [s.j])
      && InCall(w.m, s.j) && s.j !in w.landed && Known(w.m, s.j)
  {
    hide Merged, UpToDate, NoDup;
  }

  lemma CallInOrder(cfg: Config, live: map<Key, Json>, w: Wired, s: WStep)
    requires SInv(cfg, live, w) && WEnabled(cfg, w, s) && !s.Sched? && WInv(cfg, live, WApply(cfg, w, s))
    ensures LandedInOrder(WApply(cfg, w, s))
  {
    hide WEnabled, WApply, MInv, AllOver, Booked, ApplyAll, Landed, BeganBefore, InCall;
    var v := WApply(cfg, w, s);
    CallEffect(cfg, w, s);
    forall x, y | 0 <= x < y < |v.landed| && v.landed[x].lane == v.landed[y].lane
                  && Wanted(v.m, v.landed[x]).KeyOf() == Wanted(v.m, v.landed[y]).KeyOf()
      ensures BeganBefore(v.m.lanes[v.landed[x].lane].calls, v.landed[x].t, v.landed[y].t)
    {
      if y == |w.landed| {
        assert w.landed[x] in w.landed;
        LastInOrder(cfg, w.m, v.landed[x], s.j);
      }
    }
  }

  // A call that is still in its bracket began after every other one of its key.
  lemma LastInOrder(cfg: Config, m: Manager, j: Job, last: Job)
    requires MInv(cfg, m) && AllOver(cfg, m) && Known(m, j) && InCall(m, last) && j.lane == last.lane && j.t != last.t
    requires Known(m, last) && Wanted(m, j).KeyOf() == Wanted(m, last).KeyOf()
    ensures BeganBefore(m.lanes[j.lane].calls, j.t, last.t)
  {
    var l := m.lanes[j.lane];
    assert LaneOver(cfg, l);
    hide MInv, AllOver;
    forall x, y | 0 <= x < |l.calls| && 0 <= y < |l.calls| && l.calls[x] == j.t && l.calls[y] == last.t
      ensures x < y
    {
      assert KeyAt(l, l.calls[y]) == KeyAt(l, l.calls[x]) && l.place[l.calls[y]] == Patching;
    }
  }

  lemma SStepInv(cfg: Config, live: map<Key, Json>, w: Wired, s: WStep)
    requires cfg.maxInFlight != 0 && SInv(cfg, live, w) && WEnabled(cfg, w, s) && Exclusive(WApply(cfg, w, s).m)
    ensures SInv(cfg, live, WApply(cfg, w, s))
  {
    hide MInv, Booked, Linear, LandedInOrder, Exclusive, AllOver, MEnabled, MApply, InCall;
    WStepInv(cfg, live, w, s);
    if s.Sched? {
      AllOverNext(cfg, w.m, s.a);
      SchedInOrder(cfg, live, w, s.a);
    } else {
      CallEffect(cfg, w, s);
      CallInOrder(cfg, live, w, s);
    }
  }

  lemma {:induction false} SRunInv(cfg: Config, live: map<Key, Json>, w: Wired, run: seq<WStep>)
    requires cfg.maxInFlight != 0 && SInv(cfg, live, w) && IsWRun(cfg, w, run) && Serial(cfg, w, run)
    ensures SInv(cfg, live, WAfter(cfg, w, run))
    decreases |run|
  {
    hide SInv, WEnabled, WApply, Exclusive;
    if run != [] {
      SStepInv(cfg, live, w, run[0]);
      SRunInv(cfg, live, WApply(cfg, w, run[0]), run[1..]);
    }
  }

  // ---- refinement ----

  // Every Patch call succeeded and no worker gave up.
  ghost predicate AllSucceeded(l: Lane) {
    (forall e :: 0 <= e < |l.done| ==> l.done[e].ok) && NoneAbandoned(l)
  }

  // Calls of one key began in the order in which they were drained.
  ghost predicate InDrainOrder(l: Lane) {
    forall x, y :: 0 <= x < y < |l.calls| && l.calls[x] in l.drains && l.calls[y] in l.drains
                   && l.calls[x] < |l.accepted| && l.calls[y] < |l.accepted|
                   && KeyAt(l, l.calls[x]) == KeyAt(l, l.calls[y]) ==>
      IndexOf(l.drains, l.calls[x]) < IndexOf(l.drains, l.calls[y])
  }

  ghost predicate AtRest(cfg: Config, l: Lane) { Inv(cfg, l) && Quiescent(l) && AllSucceeded(l) && InDrainOrder(l) }

  lemma CallsDrained(cfg: Config, l: Lane)
    requires Inv(cfg, l)
    ensures forall x :: 0 <= x < |l.calls| ==> l.calls[x] < |l.accepted| && l.calls[x] in l.drains
  {
  }

  // Drain order of one key is acceptance order.
  lemma CallsByTicket(cfg: Config, l: Lane, x: nat, y: nat)
    requires Inv(cfg, l) && InDrainOrder(l) && x < y < |l.calls| && l.calls[x] < |l.accepted|
    requires l.calls[y] < |l.accepted|
    requires KeyAt(l, l.calls[x]) == KeyAt(l, l.calls[y])
    ensures l.calls[x] < l.calls[y]
  {
    CallsDrained(cfg, l);
    var i, j := IndexOf(l.drains, l.calls[x]), IndexOf(l.drains, l.calls[y]);
    assert l.drains[i] == l.calls[x] && l.drains[j] == l.calls[y] && i < j;
  }

  // At rest the last accepted decision of a key has had its effect.
  lemma LastIsEffective(cfg: Config, w: Wired, i: nat, t: Ticket)
    requires Booked(w) && i < |w.m.lanes| && Inv(cfg, w.m.lanes[i]) && Quiescent(w.m.lanes[i])
    requires AllSucceeded(w.m.lanes[i])
    requires LastOfKey(w.m.lanes[i], t)
    ensures Job(i, t) in w.landed && t in w.m.lanes[i].calls
  {
    var l := w.m.lanes[i];
    LastIsCurrent(l, t);
    QuietResults(cfg, l);
    assert t in l.drains && l.place[t] != Gone(Cancelled) by { hide Booked; }
    var e :| 0 <= e < |l.done| && l.done[e].ticket == t;
    hide Inv;
    assert Effective(w, Job(i, l.done[e].ticket));
  }

  // Decisions of one key take effect in the order in which they were accepted.
  lemma LandedByTicket(cfg: Config, live: map<Key, Json>, w: Wired, a: nat, b: nat)
    requires SInv(cfg, live, w) && a < b < |w.landed| && AtRest(cfg, w.m.lanes[w.landed[a].lane])
    requires Wanted(w.m, w.landed[a]).KeyOf() == Wanted(w.m, w.landed[b]).KeyOf()
    ensures w.landed[a].lane == w.landed[b].lane && w.landed[a].t < w.landed[b].t
  {
    hide MInv, Booked, AllOver, ApplyAll, AtRest, InDrainOrder, Inv;
    var j, k := w.landed[a], w.landed[b];
    SameLane(cfg, w.m, j, k);
    KnownIsCalled(cfg, w.m, j);
    KnownIsCalled(cfg, w.m, k);
    TicketsInOrder(cfg, w.m.lanes[j.lane], j.t, k.t);
  }

  lemma TicketsInOrder(cfg: Config, l: Lane, t: Ticket, u: Ticket)
    requires AtRest(cfg, l) && t in l.calls && u in l.calls && BeganBefore(l.calls, t, u)
    requires t < |l.accepted| && u < |l.accepted| && KeyAt(l, t) == KeyAt(l, u)
    ensures t < u
  {
    hide Inv, InDrainOrder, Quiescent, AllSucceeded;
    var x :| 0 <= x < |l.calls| && l.calls[x] == t;
    var y :| 0 <= y < |l.calls| && l.calls[y] == u;
    CallsByTicket(cfg, l, x, y);
  }

  // A key belongs to one lane.
  lemma SameLane(cfg: Config, m: Manager, j: Job, k: Job)
    requires MInv(cfg, m) && Known(m, j) && Known(m, k) && Wanted(m, j).KeyOf() == Wanted(m, k).KeyOf()
    ensures j.lane == k.lane
  {
    assert Inv(cfg, m.lanes[j.lane]) && Inv(cfg, m.lanes[k.lane]);
    assert m.lanes[j.lane].ns == m.lanes[k.lane].ns;
    assert Distinct(m.lanes);
  }

  ghost predicate LastFrom(s: seq<Decision>, k: Key, j: nat) {
    j < |s| && s[j].KeyOf() == k && forall i :: j < i < |s| ==> s[i].KeyOf() != k
  }

  lemma {:induction false} FindLast(ds: seq<Decision>, k: Key) returns (j: int)
    ensures j == -1 ==> forall i :: 0 <= i < |ds| ==> ds[i].KeyOf() != k
    ensures j != -1 ==> 0 <= j && LastFrom(ds, k, j)
  {
    if ds == [] {
      j := -1;
    } else if ds[|ds| - 1].KeyOf() == k {
      j := |ds| - 1;
    } else {
      j := FindLast(ds[..|ds| - 1], k);
    }
  }

  // For every key of the lane, the last decision to take effect is the last accepted one.
  lemma SameLast(cfg: Config, live: map<Key, Json>, w: Wired, i: nat, k: Key)
    requires SInv(cfg, live, w) && i < |w.m.lanes| && AtRest(cfg, w.m.lanes[i]) && k.namespace == w.m.lanes[i].ns
    ensures LastFor(Landed(w.m, w.landed), k) == LastFor(w.m.lanes[i].accepted, k)
  {
    var l := w.m.lanes[i];
    var t := FindLast(l.accepted, k);
    if t == -1 {
      NoneLanded(cfg, live, w, i, k);
      hide SInv, AtRest;
      LastForNone(l.accepted, k);
      LastForNone(Landed(w.m, w.landed), k);
    } else {
      LastIsLanded(cfg, live, w, i, k, t);
      hide SInv, AtRest;
      LastForIs(l.accepted, k, t);
    }
    hide LastFor;
  }

  lemma NoneLanded(cfg: Config, live: map<Key, Json>, w: Wired, i: nat, k: Key)
    requires SInv(cfg, live, w) && i < |w.m.lanes| && k.namespace == w.m.lanes[i].ns
    requires forall t :: 0 <= t < |w.m.lanes[i].accepted| ==> w.m.lanes[i].accepted[t].KeyOf() != k
    ensures forall b :: 0 <= b < |w.landed| ==> Landed(w.m, w.landed)[b].KeyOf() != k
  {
    hide MInv, Booked, AllOver, ApplyAll, LandedInOrder;
    forall b | 0 <= b < |w.landed|
      ensures Landed(w.m, w.landed)[b].KeyOf() != k
    {
      OwnLane(cfg, w.m, w.landed[b], i);
    }
  }

  lemma NoLaterLanded(cfg: Config, live: map<Key, Json>, w: Wired, i: nat, k: Key, t: Ticket, a: nat, b: nat)
    requires SInv(cfg, live, w) && i < |w.m.lanes| && AtRest(cfg, w.m.lanes[i]) && LastFrom(w.m.lanes[i].accepted, k, t)
    requires a < b < |w.landed| && w.landed[a] == Job(i, t)
    ensures Wanted(w.m, w.landed[b]).KeyOf() != k
  {
    hide MInv, AllOver, ApplyAll, LandedInOrder, AtRest, Booked;
    if Wanted(w.m, w.landed[b]).KeyOf() == k { LandedByTicket(cfg, live, w, a, b); }
  }

  lemma LastLands(cfg: Config, live: map<Key, Json>, w: Wired, i: nat, k: Key, t: Ticket) returns (a: nat)
    requires SInv(cfg, live, w) && i < |w.m.lanes| && AtRest(cfg, w.m.lanes[i]) && LastFrom(w.m.lanes[i].accepted, k, t)
    ensures a < |w.landed| && w.landed[a] == Job(i, t)
  {
    hide MInv, AllOver, LandedInOrder, InDrainOrder, Quiescent, AllSucceeded, Inv, Booked, Linear;
    assert LastOfKey(w.m.lanes[i], t);
    LastIsEffective(cfg, w, i, t);
    a :| 0 <= a < |w.landed| && w.landed[a] == Job(i, t);
  }

  lemma LastIsLanded(cfg: Config, live: map<Key, Json>, w: Wired, i: nat, k: Key, t: Ticket)
    requires SInv(cfg, live, w) && i < |w.m.lanes| && AtRest(cfg, w.m.lanes[i]) && LastFrom(w.m.lanes[i].accepted, k, t)
    ensures LastFor(Landed(w.m, w.landed), k) == Some(w.m.lanes[i].accepted[t])
  {
    hide MInv, AllOver, ApplyAll, LandedInOrder, AtRest, Booked;
    var a := LastLands(cfg, live, w, i, k, t);
    var ds := Landed(w.m, w.landed);
    assert ds[a] == w.m.lanes[i].accepted[t];
    forall b | a < b < |ds|
      ensures ds[b].KeyOf() != k
    {
      NoLaterLanded(cfg, live, w, i, k, t, a, b);
    }
    hide LastFor;
    LastForIs(ds, k, a);
  }

  lemma OwnLane(cfg: Config, m: Manager, j: Job, i: nat)
    requires MInv(cfg, m) && Known(m, j) && i < |m.lanes|
    ensures Wanted(m, j).KeyOf().namespace == m.lanes[i].ns ==> j.lane == i
    ensures j.lane == i ==> Wanted(m, j) in m.lanes[i].accepted
  {
    assert Inv(cfg, m.lanes[j.lane]) && Distinct(m.lanes);
  }

  // In every schedule in which same-key Patch calls run one at a time, in drain
  // order, and succeed, once a lane has come to rest the live KSvcs of its namespace
  // are what they would be had every accepted decision been written one by one.
  lemma CoalescingRefinesWriteThrough(c: Config, live: map<Key, Json>, run: seq<WStep>, w: Wired, i: nat, k: Key)
    requires WReaches(c, live, run, w) && Serial(WithDefaults(c), Wired(NEW_MANAGER, live, map[], []), run)
    requires i < |w.m.lanes| && Quiescent(w.m.lanes[i]) && AllSucceeded(w.m.lanes[i]) && InDrainOrder(w.m.lanes[i])
    requires k in live && k.namespace == w.m.lanes[i].ns
    ensures w.live.Keys == ApplyAll(live, w.m.lanes[i].accepted).Keys == live.Keys
    ensures w.live[k] == ApplyAll(live, w.m.lanes[i].accepted)[k]
  {
    var cfg := WithDefaults(c);
    NewInv(cfg, live);
    SRunInv(cfg, live, Wired(NEW_MANAGER, live, map[], []), run);
    assert Inv(cfg, w.m.lanes[i]);
    assert AtRest(cfg, w.m.lanes[i]) by { hide Inv, Quiescent, AllSucceeded, InDrainOrder; }
    hide WReaches, Serial, AtRest, MInv, Booked, AllOver, LandedInOrder, ApplyAll;
    SameLast(cfg, live, w, i, k);
    LastDecides(live, Landed(w.m, w.landed));
    LastDecides(live, w.m.lanes[i].accepted);
  }

  lemma WReachedNamespace(c: Config, live: map<Key, Json>, run: seq<WStep>, w: Wired, i: nat, t: nat)
    requires WReaches(c, live, run, w) && i < |w.m.lanes| && t < |w.m.lanes[i].accepted|
    ensures w.m.lanes[i].accepted[t].namespace == w.m.lanes[i].ns
  {
    NewInv(WithDefaults(c), live);
    WRunInv(WithDefaults(c), live, Wired(NEW_MANAGER, live, map[], []), run);
    assert Inv(WithDefaults(c), w.m.lanes[i]);
    assert Shape(w.m.lanes[i]);
  }

  // In such a schedule the annotation of a KSvc says what the last decision
  // accepted for its namespace and name asked for.
  lemma LiveSaysLastAccepted(c: Config, live: map<Key, Json>, run: seq<WStep>, w: Wired, i: nat, t: nat)
    requires WReaches(c, live, run, w) && Serial(WithDefaults(c), Wired(NEW_MANAGER, live, map[], []), run)
    requires i < |w.m.lanes| && Quiescent(w.m.lanes[i]) && AllSucceeded(w.m.lanes[i]) && InDrainOrder(w.m.lanes[i])
    requires var ds := w.m.lanes[i].accepted;
      && t < |ds| && Key(ds[t].namespace, ds[t].ksvcName) in live
      && forall u :: t < u < |ds| ==> ds[u].namespace != ds[t].namespace || ds[u].ksvcName != ds[t].ksvcName
    ensures var d := w.m.lanes[i].accepted[t];
      var k := Key(d.namespace, d.ksvcName);
      k in w.live && Says(w.live[k], d.desiredMinScale)
  {
    var ds := w.m.lanes[i].accepted;
    var k := Key(ds[t].namespace, ds[t].ksvcName);
    WReachedNamespace(c, live, run, w, i, t);
    CoalescingRefinesWriteThrough(c, live, run, w, i, k);
    hide WReaches, Serial, Quiescent, AllSucceeded, InDrainOrder, ApplyAll, Says;
    LastIsSaid(live, ds, t);
  }
}
