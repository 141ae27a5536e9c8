// How long a slow decision waits: exactly when the debounce timer of a lane is due,
// and who may empty the queue before that.
module Debounce {
  import opened Basics
  import opened Decisions
  import opened LaneMachine
  import opened LaneInvariants
  import opened ManagerMachine
  import opened FlusherTheorems

  // ---- the window of a lane ----

  // Timer id was armed for one window after slow decision t was written.
  ghost predicate ArmedBy(cfg: Config, l: Lane, id: TimerId, t: Ticket) {
    && id in l.timers && t < |l.accepted| && t < |l.writtenAt| && l.accepted[t].desiredMinScale != 1
    && l.timers[id].deadline == l.writtenAt[t] + cfg.window
  }

  // A callback is outstanding only when its window is over.
  ghost predicate InTime(cfg: Config, l: Lane, id: TimerId) {
    && id in l.timers && (exists t :: ArmedBy(cfg, l, id, t))
    && (l.timers[id].Fired? ==> l.timers[id].deadline <= l.clock)
  }

  // t has opened the window that the recorded timer closes: it came after whatever
  // was drained, and until Stop runs nothing in the queue is older.
  ghost predicate Opens(cfg: Config, l: Lane, t: Ticket) {
    && l.timer.Some? && ArmedBy(cfg, l, l.timer.value, t)
    && (forall u :: u in l.drains ==> u < t)
    && (!l.timerStopRan ==> forall k :: k in l.pending ==> t <= l.pending[k])
  }

  ghost predicate Windowed(cfg: Config, l: Lane) {
    && (forall id :: id in l.timers ==> InTime(cfg, l, id))
    && (l.timer.Some? ==> exists t :: Opens(cfg, l, t))
  }

  // ---- every step keeps it ----

  // The logs grow, the clock does not go back, and no timer is added.
  ghost predicate Later(l: Lane, w: Lane) {
    && l.accepted <= w.accepted && l.writtenAt <= w.writtenAt && l.clock <= w.clock
    && forall id :: id in w.timers ==>
         id in l.timers && w.timers[id].deadline == l.timers[id].deadline
         && (w.timers[id].Fired? ==> l.timers[id].Fired? || l.timers[id].deadline <= w.clock)
  }

  lemma LaterArmed(cfg: Config, l: Lane, w: Lane, id: TimerId, t: Ticket)
    requires ArmedBy(cfg, l, id, t) && l.accepted <= w.accepted && l.writtenAt <= w.writtenAt
    requires id in w.timers && w.timers[id].deadline == l.timers[id].deadline
    ensures ArmedBy(cfg, w, id, t)
  {
  }

  lemma LaterInTime(cfg: Config, l: Lane, w: Lane)
    requires (forall id :: id in l.timers ==> InTime(cfg, l, id)) && Later(l, w)
    ensures forall id :: id in w.timers ==> InTime(cfg, w, id)
  {
    forall id | id in w.timers
      ensures InTime(cfg, w, id)
    {
      assert InTime(cfg, l, id);
      var t :| ArmedBy(cfg, l, id, t);
      LaterArmed(cfg, l, w, id, t);
    }
  }

  // Without a recorded timer there is nothing more to show.
  lemma LaterUnrecorded(cfg: Config, l: Lane, w: Lane)
    requires Windowed(cfg, l) && Later(l, w) && w.timer.None?
    ensures Windowed(cfg, w)
  {
    hide InTime, Opens, Later;
    LaterInTime(cfg, l, w);
  }

  // The recorded timer and the queue stay as they are.
  lemma LaterSame(cfg: Config, l: Lane, w: Lane)
    requires Windowed(cfg, l) && Later(l, w) && w.timer == l.timer && w.drains == l.drains
    requires w.timer.Some? ==> w.timer.value in w.timers
    requires w.pending == l.pending && w.timerStopRan == l.timerStopRan
    ensures Windowed(cfg, w)
  {
    LaterInTime(cfg, l, w);
    if l.timer.Some? {
      var t :| Opens(cfg, l, t);
      LaterArmed(cfg, l, w, l.timer.value, t);
      assert Opens(cfg, w, t);
    }
    hide InTime;
  }

  // A slow decision joins the open window.
  lemma JoinsWindow(cfg: Config, l: Lane, d: Decision, now: int)
    requires Windowed(cfg, l) && l.timer.Some? && l.timer.value in l.timers && l.clock <= now
    requires |l.writtenAt| == |l.accepted|
    ensures Windowed(cfg, Arm(cfg, Write(l, d, now)))
  {
    var w := Arm(cfg, Write(l, d, now));
    assert Later(l, w);
    LaterInTime(cfg, l, w);
    var t :| Opens(cfg, l, t);
    LaterArmed(cfg, l, w, l.timer.value, t);
    assert Opens(cfg, w, t);
    hide InTime;
  }

  // A slow decision opens a window of its own.
  lemma OpensWindow(cfg: Config, l: Lane, d: Decision, now: int)
    requires Windowed(cfg, l) && l.timer.None? && l.clock <= now && d.desiredMinScale != 1
    requires |l.writtenAt| == |l.accepted| && (forall u :: u in l.drains ==> u < |l.accepted|)
    requires l.timerStopRan || l.pending == map[]
    requires forall id :: id in l.timers ==> id < l.nextTimer
    ensures Windowed(cfg, Arm(cfg, Write(l, d, now)))
  {
    var q := Write(l, d, now);
    var w := Arm(cfg, q);
    assert Later(l, q);
    LaterInTime(cfg, l, q);
    forall id | id in w.timers
      ensures InTime(cfg, w, id)
    {
      if id == l.nextTimer {
        assert ArmedBy(cfg, w, id, |l.accepted|);
      } else {
        assert InTime(cfg, q, id);
        var t :| ArmedBy(cfg, q, id, t);
        assert ArmedBy(cfg, w, id, t);
      }
    }
    assert ArmedBy(cfg, w, l.nextTimer, |l.accepted|);
    assert Opens(cfg, w, |l.accepted|);
  }

  lemma DrainLater(l: Lane, order: seq<Key>)
    requires IsOrder(l.pending, order)
    ensures Later(l, Drain(l, order)) && Drain(l, order).timer == None
  {
    hide MoveToBatch, IsOrder;
  }

  lemma LaterChain(a: Lane, b: Lane, c: Lane)
    requires Later(a, b) && Later(b, c)
    ensures Later(a, c)
  {
  }

  lemma EnqueueWindowed(cfg: Config, l: Lane, d: Decision, now: int, order: seq<Key>)
    requires Inv(cfg, l) && Windowed(cfg, l) && Enabled(cfg, l, Enqueue(d, now, order))
    ensures Windowed(cfg, Apply(cfg, l, Enqueue(d, now, order)))
  {
    QueueFacts(cfg, l);
    hide Inv, Windowed;
    if d.desiredMinScale == 1 {
      var q := Write(l, d, now);
      assert Later(l, q);
      DrainLater(q, order);
      LaterChain(l, q, Drain(q, order));
      LaterUnrecorded(cfg, l, Drain(q, order));
    } else if l.timer.Some? {
      JoinsWindow(cfg, l, d, now);
    } else {
      OpensWindow(cfg, l, d, now);
    }
    hide Later, Drain;
  }

  // What the lane invariant says about the queue and its timers.
  lemma QueueFacts(cfg: Config, l: Lane)
    requires Inv(cfg, l)
    ensures |l.writtenAt| == |l.accepted| && (forall u :: u in l.drains ==> u < |l.accepted|)
    ensures l.timer.Some? ==> l.timer.value in l.timers
    ensures l.timer.None? ==> l.timerStopRan || l.pending == map[]
    ensures forall id :: id in l.timers ==> id < l.nextTimer
  {
    assert Shape(l) && DrainsOk(l) && TimerOk(cfg, l);
  }

  lemma FireWindowed(cfg: Config, l: Lane, id: TimerId, now: int)
    requires Inv(cfg, l) && Windowed(cfg, l) && Enabled(cfg, l, Fire(id, now))
    ensures Windowed(cfg, Apply(cfg, l, Fire(id, now)))
  {
    QueueFacts(cfg, l);
    hide Inv, Windowed;
    var w := Apply(cfg, l, Fire(id, now));
    assert Later(l, w);
    LaterSame(cfg, l, w);
  }

  lemma FlushWindowed(cfg: Config, l: Lane, id: TimerId, order: seq<Key>)
    requires Windowed(cfg, l) && Enabled(cfg, l, Flush(id, order))
    ensures Windowed(cfg, Apply(cfg, l, Flush(id, order)))
  {
    hide Windowed, Drain, IsOrder;
    var q := l.(timers := l.timers - {id});
    assert Later(l, q);
    DrainLater(q, order);
    LaterChain(l, q, Drain(q, order));
    LaterUnrecorded(cfg, l, Drain(q, order));
    hide Later;
  }

  lemma StopWindowed(cfg: Config, l: Lane)
    requires Windowed(cfg, l)
    ensures Windowed(cfg, Apply(cfg, l, LaneMachine.StopTimer))
  {
    hide Windowed;
    var w := Apply(cfg, l, LaneMachine.StopTimer);
    assert Later(l, w);
    LaterUnrecorded(cfg, l, w);
  }

  lemma QuietWindowed(cfg: Config, l: Lane, w: Lane)
    requires Inv(cfg, l) && Windowed(cfg, l)
    requires w.accepted == l.accepted && w.writtenAt == l.writtenAt && w.clock == l.clock && w.pending == l.pending
    requires w.timer == l.timer && w.timers == l.timers && w.timerStopRan == l.timerStopRan && w.drains == l.drains
    ensures Windowed(cfg, w)
  {
    QueueFacts(cfg, l);
    InTimeNow(cfg, l);
    hide Inv, Windowed;
    assert Later(l, w);
    LaterSame(cfg, l, w);
  }

  lemma InTimeNow(cfg: Config, l: Lane)
    requires Windowed(cfg, l)
    ensures forall id :: id in l.timers ==> InTime(cfg, l, id)
  {
  }

  lemma StepWindowed(cfg: Config, l: Lane, step: Step)
    requires Inv(cfg, l) && Windowed(cfg, l) && Enabled(cfg, l, step)
    ensures Windowed(cfg, Apply(cfg, l, step))
  {
    hide Inv, Windowed, Drain;
    match step
    case Enqueue(d, now, order) => EnqueueWindowed(cfg, l, d, now, order);
    case Fire(id, now) => FireWindowed(cfg, l, id, now);
    case Flush(id, order) => FlushWindowed(cfg, l, id, order);
    case StopTimer => StopWindowed(cfg, l);
    case _ => QuietWindowed(cfg, l, Apply(cfg, l, step));
  }

  ghost predicate AllWindowed(cfg: Config, m: Manager) {
    forall i :: 0 <= i < |m.lanes| ==> Windowed(cfg, m.lanes[i])
  }

  lemma NewWindowed(cfg: Config, ns: string, now: int)
    ensures Windowed(cfg, NewLane(ns, now))
  {
  }

  lemma MStepWindowed(cfg: Config, m: Manager, a: MStep)
    requires MInv(cfg, m) && AllWindowed(cfg, m) && MEnabled(cfg, m, a)
    ensures AllWindowed(cfg, MApply(cfg, m, a))
  {
    hide Windowed, Apply, Enabled, Inv, Books;
    match a
    case Admit(d, now) => NewWindowed(cfg, d.namespace, now);
    case InLane(i, step) => StepWindowed(cfg, m.lanes[i], step);
    case StopLane(i) => StopWindowed(cfg, m.lanes[i]);
    case _ =>
  }

  lemma {:induction false} RunWindowed(cfg: Config, m: Manager, run: seq<MStep>)
    requires cfg.maxInFlight != 0 && MInv(cfg, m) && AllWindowed(cfg, m) && IsRun(cfg, m, run)
    ensures AllWindowed(cfg, After(cfg, m, run))
    decreases |run|
  {
    hide MInv, AllWindowed, MEnabled, MApply;
    if run != [] {
      MStepInv(cfg, m, run[0]);
      MStepWindowed(cfg, m, run[0]);
      RunWindowed(cfg, MApply(cfg, m, run[0]), run[1..]);
    }
  }

  lemma ReachedWindowed(c: Config, run: seq<MStep>, m: Manager, i: nat)
    requires Reaches(c, run, m) && i < |m.lanes|
    ensures Windowed(WithDefaults(c), m.lanes[i]) && Inv(WithDefaults(c), m.lanes[i])
  {
    ReachedInv(c, run, m);
    hide Windowed, Inv;
    RunWindowed(WithDefaults(c), NEW_MANAGER, run);
  }

  // ---- results ----

  // The timer was set off by a slow decision that is at least one window old.
  ghost predicate Due(cfg: Config, l: Lane, id: TimerId) {
    exists t: nat :: ArmedBy(cfg, l, id, t) && l.writtenAt[t] + cfg.window <= l.clock
  }

  // In every reachable state the recorded timer is due exactly one window after the
  // slow decision that opened the window, and a callback is outstanding only when
  // the window of the decision that armed its timer is over.
  lemma DebounceExactly(c: Config, run: seq<MStep>, m: Manager, i: nat)
    requires Reaches(c, run, m) && i < |m.lanes|
    ensures var l := m.lanes[i];
      && (l.timer.Some? ==> exists t :: Opens(WithDefaults(c), l, t))
      && (forall id :: id in l.timers && l.timers[id].Fired? ==> Due(WithDefaults(c), l, id))
  {
    ReachedWindowed(c, run, m, i);
    hide Opens, Inv, Reaches;
    var cfg, l := WithDefaults(c), m.lanes[i];
    forall id | id in l.timers && l.timers[id].Fired?
      ensures Due(cfg, l, id)
    {
      assert InTime(cfg, l, id);
      var t :| ArmedBy(cfg, l, id, t);
    }
  }

  // Who takes decisions out of a queue: a fast decision of the same namespace, or a
  // callback that a slow decision has set off at least one window ago. A slow decision
  // by itself takes nothing out and stays in.
  lemma DrainedByWhom(c: Config, run: seq<MStep>, m: Manager, i: nat, step: Step)
    requires Reaches(c, run, m) && MEnabled(WithDefaults(c), m, InLane(i, step))
    ensures var cfg, l := WithDefaults(c), m.lanes[i];
      var w := MApply(cfg, m, InLane(i, step)).lanes[i];
      && (w.drains != l.drains ==>
            (step.Enqueue? && step.d.desiredMinScale == 1) || (step.Flush? && Due(cfg, l, step.id)))
      && (step.Enqueue? && step.d.desiredMinScale != 1 ==>
            w.pending == l.pending[Key(step.d.namespace, step.d.ksvcName) := |l.accepted|] && w.timer.Some?)
  {
    DebounceExactly(c, run, m, i);
    hide Reaches, Opens, Due, Drain;
  }

  // ---- windows cut short ----

  // The window is over by the time the queue is emptied by a callback.
  ghost predicate FullWindow(cfg: Config, l: Lane) {
    forall id, order, t: nat :: Enabled(cfg, l, Flush(id, order)) && Opens(cfg, l, t) ==>
      l.writtenAt[t] + cfg.window <= l.clock
  }

  // No callback but that of the recorded timer is outstanding, or the recorded timer
  // is due anyway.
  ghost predicate NoStaleCallback(l: Lane) {
    || (forall id :: id in l.timers && l.timers[id].Fired? ==> l.timer == Some(id))
    || (l.timer.Some? && l.timer.value in l.timers && l.timers[l.timer.value].deadline <= l.clock)
  }

  lemma {:induction false} SomeOrder(pending: map<Key, Ticket>) returns (order: seq<Key>)
    ensures IsOrder(pending, order)
    decreases |pending|
  {
    order := [];
    if pending != map[] {
      var k :| k in pending;
      var rest := pending - {k};
      assert rest.Keys == pending.Keys - {k};
      assert |rest| == |rest.Keys| < |pending.Keys| == |pending|;
      var init := SomeOrder(rest);
      order := init + [k];
      assert forall x :: x in order <==> x in init || x == k;
    }
  }

  // A window that is open in a reachable state is never cut short by a callback
  // exactly when no callback of an earlier window is outstanding.
  lemma FullWindowIff(c: Config, run: seq<MStep>, m: Manager, i: nat)
    requires Reaches(c, run, m) && i < |m.lanes| && m.lanes[i].timer.Some?
    ensures FullWindow(WithDefaults(c), m.lanes[i]) <==> NoStaleCallback(m.lanes[i])
  {
    ReachedWindowed(c, run, m, i);
    var cfg, l := WithDefaults(c), m.lanes[i];
    hide Reaches, Inv, IsOrder;
    assert forall id :: id in l.timers ==> InTime(cfg, l, id);
    var t :| Opens(cfg, l, t);
    if !NoStaleCallback(l) {
      var id :| id in l.timers && l.timers[id].Fired? && l.timer != Some(id);
      var order := SomeOrder(l.pending);
      assert Enabled(cfg, l, Flush(id, order));
    }
  }

  function Slow(name: string): Decision { Decision("ns", name, name, 0, "scaledownz=true") }

  const FAST := Decision("ns", "web", "web", 1, "ScaleDownBlocked")

  // A timer has fired and its callback has not run yet.
  lemma FiredLane(cfg: Config) returns (l1: Lane, l2: Lane)
    requires cfg.window > 0
    ensures var l0 := NewLane("ns", 0);
      && Enabled(cfg, l0, Enqueue(Slow("web"), 0, [])) && l1 == Apply(cfg, l0, Enqueue(Slow("web"), 0, []))
      && Enabled(cfg, l1, Fire(0, cfg.window)) && l2 == Apply(cfg, l1, Fire(0, cfg.window))
    ensures l1.ns == l2.ns == "ns" && l2.pending == map[Key("ns", "web") := 0] && l2.timer == Some(0)
    ensures l2.timers == map[0 := Fired(cfg.window)] && l2.nextTimer == 1 && l2.clock == cfg.window
  {
    var l0 := NewLane("ns", 0);
    l1 := Apply(cfg, l0, Enqueue(Slow("web"), 0, []));
    assert l1.timers == map[0 := Armed(cfg.window)] && l1.timer == Some(0);
    l2 := Apply(cfg, l1, Fire(0, cfg.window));
  }

  // Before that callback runs, a fast decision empties the queue and a slow one opens
  // the next window.
  lemma StaleLane(cfg: Config, l2: Lane) returns (l3: Lane, l4: Lane)
    requires cfg.window > 0 && l2.ns == "ns" && l2.pending == map[Key("ns", "web") := 0] && l2.timer == Some(0)
    requires l2.timers == map[0 := Fired(cfg.window)] && l2.nextTimer == 1 && l2.clock == cfg.window
    ensures var k, n := Key("ns", "web"), cfg.window;
      && Enabled(cfg, l2, Enqueue(FAST, n, [k])) && l3 == Apply(cfg, l2, Enqueue(FAST, n, [k]))
      && Enabled(cfg, l3, Enqueue(Slow("api"), n, [])) && l4 == Apply(cfg, l3, Enqueue(Slow("api"), n, []))
    ensures l3.ns == "ns" && l4.timer == Some(1) && l4.clock == cfg.window
    ensures l4.timers == map[0 := Fired(cfg.window), 1 := Armed(cfg.window + cfg.window)]
  {
    hide MoveToBatch, Put;
    var k := Key("ns", "web");
    assert IsOrder(Write(l2, FAST, cfg.window).pending, [k]);
    l3 := Apply(cfg, l2, Enqueue(FAST, cfg.window, [k]));
    assert l3.timer == None && l3.timers == l2.timers && l3.nextTimer == 1;
    hide Drain;
    l4 := Apply(cfg, l3, Enqueue(Slow("api"), cfg.window, []));
  }

  // A running manager with one lane and no Enqueue call under way.
  ghost predicate Single(m: Manager, l: Lane) { m.lanes == [l] && !m.stopped && m.admitted == multiset{} }

  lemma OneEnqueue(cfg: Config, m: Manager, l: Lane, d: Decision, now: int, order: seq<Key>)
    returns (w: Manager, run: seq<MStep>)
    requires Single(m, l) && l.ns == d.namespace && Enabled(cfg, l, Enqueue(d, now, order))
    ensures IsRun(cfg, m, run) && After(cfg, m, run) == w
    ensures Single(w, Apply(cfg, l, Enqueue(d, now, order)))
  {
    hide Apply, Enabled;
    var a, b := Admit(d, now), InLane(0, Enqueue(d, now, order));
    var m1 := MApply(cfg, m, a);
    assert m1.lanes == [l] && m1.admitted == multiset{Call(0, d)};
    w := MApply(cfg, m1, b);
    run := [a] + ([b] + []);
    RunCons(cfg, m1, b, []);
    RunCons(cfg, m, a, [b] + []);
  }

  lemma FirstEnqueue(cfg: Config, d: Decision, now: int, order: seq<Key>) returns (w: Manager, run: seq<MStep>)
    requires Enabled(cfg, NewLane(d.namespace, now), Enqueue(d, now, order))
    ensures IsRun(cfg, NEW_MANAGER, run) && After(cfg, NEW_MANAGER, run) == w
    ensures Single(w, Apply(cfg, NewLane(d.namespace, now), Enqueue(d, now, order)))
  {
    hide Apply, Enabled;
    var a, b := Admit(d, now), InLane(0, Enqueue(d, now, order));
    var m1 := MApply(cfg, NEW_MANAGER, a);
    assert m1.lanes == [NewLane(d.namespace, now)] && m1.admitted == multiset{Call(0, d)};
    w := MApply(cfg, m1, b);
    run := [a] + ([b] + []);
    RunCons(cfg, m1, b, []);
    RunCons(cfg, NEW_MANAGER, a, [b] + []);
  }

  lemma OneFire(cfg: Config, m: Manager, l: Lane, id: TimerId, now: int) returns (w: Manager, run: seq<MStep>)
    requires Single(m, l) && Enabled(cfg, l, Fire(id, now))
    ensures IsRun(cfg, m, run) && After(cfg, m, run) == w && Single(w, Apply(cfg, l, Fire(id, now)))
  {
    hide Apply, Enabled;
    var a := InLane(0, Fire(id, now));
    w := MApply(cfg, m, a);
    run := [a] + [];
    RunCons(cfg, m, a, []);
  }

  lemma StaleRun(cfg: Config) returns (run: seq<MStep>, m: Manager)
    requires cfg.window > 0
    ensures IsRun(cfg, NEW_MANAGER, run) && After(cfg, NEW_MANAGER, run) == m
    ensures |m.lanes| == 1 && m.lanes[0].timer == Some(1) && m.lanes[0].clock == cfg.window
    ensures m.lanes[0].timers == map[0 := Fired(cfg.window), 1 := Armed(cfg.window + cfg.window)]
  {
    var l1, l2 := FiredLane(cfg);
    var l3, l4 := StaleLane(cfg, l2);
    hide Apply, Enabled, IsRun, After, MApply, MEnabled;
    var m1, r1 := FirstEnqueue(cfg, Slow("web"), 0, []);
    var m2, r2 := OneFire(cfg, m1, l1, 0, cfg.window);
    var m3, r3 := OneEnqueue(cfg, m2, l2, FAST, cfg.window, [Key("ns", "web")]);
    var m4, r4 := OneEnqueue(cfg, m3, l3, Slow("api"), cfg.window, []);
    RunAppend(cfg, m2, r3, r4);
    RunAppend(cfg, m1, r2, r3 + r4);
    RunAppend(cfg, NEW_MANAGER, r1, r2 + (r3 + r4));
    m, run := m4, r1 + (r2 + (r3 + r4));
  }

  // Such a window can be cut short, whatever the configuration: the callback that
  // came too late for the first window empties the second one.
  lemma WindowCutShort(c: Config) returns (run: seq<MStep>, m: Manager)
    ensures Reaches(c, run, m) && |m.lanes| == 1 && m.lanes[0].timer.Some?
    ensures !FullWindow(WithDefaults(c), m.lanes[0])
  {
    hide FullWindow, IsRun, After;
    run, m := StaleRun(WithDefaults(c));
    var l := m.lanes[0];
    assert 0 in l.timers && l.timers[0].Fired? && l.timers[1].deadline > l.clock;
    assert !NoStaleCallback(l);
    FullWindowIff(c, run, m, 0);
  }
}
