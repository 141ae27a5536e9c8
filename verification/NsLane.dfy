// The lane and the manager as the code has them: mutable fields under a lock.
// Each method is one critical section; the ghost field g is the state of the
// step machine, and every method makes exactly one machine step.
module NsLanes {
  import opened Basics
  import opened Decisions
  import opened LaneMachine
  import opened LaneInvariants

  class WaitGroup {
    var n: int

    constructor ()
      ensures n == 0
    {
      n := 0;
    }
  }

  datatype Selected = Acquired | GaveUp | Blocked

  class NsLane {
    const ns: string
    const cfg: Config
    var pending: map<Key, Decision>
    var failures: map<Key, nat>
    var timer: Option<TimerId>
    var nextTimer: TimerId
    var inflight: int
    var slots: int
    ghost var g: Lane

    ghost predicate Valid()
      reads this
    {
      && Inv(cfg, g) && g.ns == ns
      && Mirrors(pending, g) && Agrees(failures, timer, nextTimer, inflight, slots, g)
    }

    constructor (ns: string, cfg: Config, now: int)
      requires cfg.maxInFlight != 0
      ensures Valid() && this.ns == ns && this.cfg == cfg && g == NewLane(ns, now)
    {
      this.ns, this.cfg := ns, cfg;
      pending, failures, timer, nextTimer, inflight, slots := map[], map[], None, 0, 0, 0;
      g := NewLane(ns, now);
      new;
      NewLaneInv(cfg, ns, now);
    }

    // Snapshots and clears the pending map; the order is the map's own.
    method DrainLocked() returns (batch: seq<Decision>, ghost order: seq<Key>)
      modifies this`pending, this`timer
      ensures pending == map[] && timer == None
      ensures NoDup(order) && (forall k :: k in order <==> k in old(pending))
      ensures |batch| == |order| && forall i :: 0 <= i < |order| ==> batch[i] == old(pending)[order[i]]
    {
      timer := None;
      batch, order := [], [];
      var rest := pending.Keys;
      while rest != {}
        invariant rest <= pending.Keys
        invariant NoDup(order) && forall k :: k in order <==> k in pending && k !in rest
        invariant |batch| == |order| && forall i :: 0 <= i < |order| ==> batch[i] == pending[order[i]]
        decreases rest
      {
        var k :| k in rest;
        batch, order, rest := batch + [pending[k]], order + [k], rest - {k};
      }
      pending := map[];
    }

    method Enqueue(d: Decision, now: int) returns (batch: seq<Decision>, ghost order: seq<Key>)
      requires Valid() && d.namespace == ns && g.clock <= now
      modifies this
      ensures Valid()
      ensures Enabled(cfg, old(g), LaneMachine.Enqueue(d, now, order))
      ensures g == Apply(cfg, old(g), LaneMachine.Enqueue(d, now, order))
      ensures Handed(old(g), g, batch)
      ensures d.desiredMinScale == 1 ==> pending == map[] && timer == None
      ensures d.desiredMinScale != 1 ==>
        && batch == [] && pending == old(pending)[Key(d.namespace, d.ksvcName) := d]
        && timer.Some? && (old(timer).Some? ==> timer == old(timer))
        && (old(timer).None? ==> timer.value in g.timers && g.timers[timer.value] == Armed(now + cfg.window))
    {
      hide Inv, Apply, Enabled, Handed, Mirrors, Agrees;
      MirrorsWrite(pending, g, d, now);
      pending := pending[d.KeyOf() := d];
      batch, order := [], [];
      if d.desiredMinScale == 1 {
        ghost var was := pending;
        batch, order := DrainLocked();
        MirrorsDrain(was, Write(g, d, now), order, batch);
        FastAgrees(cfg, g, d, now, order, batch, failures, old(timer), nextTimer, inflight, slots);
      } else {
        SlowAgrees(cfg, g, d, now, order, pending, failures, old(timer), nextTimer, inflight, slots);
        if timer.None? {
          timer, nextTimer := Some(nextTimer), nextTimer + 1;
        }
      }
      ghost var step := LaneMachine.Enqueue(d, now, order);
      StepInv(cfg, g, step);
      StepKeepsIdentity(cfg, g, step);
      g := Apply(cfg, g, step);
    }

    // The timer callback; the timer that fired need not be the recorded one.
    method FlushSlow(ghost id: TimerId) returns (batch: seq<Decision>, ghost order: seq<Key>)
      requires Valid() && id in g.timers && g.timers[id].Fired?
      modifies this
      ensures Valid()
      ensures Enabled(cfg, old(g), Flush(id, order)) && g == Apply(cfg, old(g), Flush(id, order))
      ensures Handed(old(g), g, batch)
    {
      hide Inv, Apply, Enabled, Handed, Mirrors, Agrees;
      ghost var was := pending;
      ghost var q := g.(timers := g.timers - {id});
      MirrorsRetimed(was, g, q);
      batch, order := DrainLocked();
      MirrorsDrain(was, q, order, batch);
      FlushAgrees(cfg, g, id, order, batch, failures, old(timer), nextTimer, inflight, slots);
      StepInv(cfg, g, Flush(id, order));
      StepKeepsIdentity(cfg, g, Flush(id, order));
      g := Apply(cfg, g, Flush(id, order));
    }

    method StopTimer()
      requires Valid()
      modifies this
      ensures Valid() && g == Apply(cfg, old(g), LaneMachine.StopTimer)
      ensures timer == None && pending == old(pending)
    {
      hide Inv;
      timer := None;
      StepInv(cfg, g, LaneMachine.StopTimer);
      g := Apply(cfg, g, LaneMachine.StopTimer);
    }

    // Fans the batch out, one goroutine and one wait-group entry per decision.
    method Dispatch(batch: seq<Decision>, ghost b: nat, wg: WaitGroup)
      requires Valid()
      requires (batch == [] || (b < |g.batches| && g.batches[b].next == 0 && |g.batches[b].items| == |batch|))
      modifies this, wg
      ensures Valid() && wg.n == old(wg.n) + |batch|
      ensures pending == old(pending) && timer == old(timer)
      ensures batch == [] ==> g == old(g)
      ensures batch != [] ==> |g.batches| == |old(g).batches| && g.batches[b].next == |batch|
      ensures Count(g.place, Live) == Count(old(g).place, Live) + |batch|
      ensures g.accepted == old(g).accepted
    {
      hide Inv;
      var i := 0;
      while i < |batch|
        invariant 0 <= i <= |batch| && Valid()
        invariant i == 0 ==> g == old(g)
        invariant batch != [] ==> b < |g.batches| && g.batches[b].next == i && |g.batches[b].items| == |batch|
        invariant |g.batches| == |old(g).batches| && g.accepted == old(g).accepted
        invariant wg.n == old(wg.n) + i && pending == old(pending) && timer == old(timer)
        invariant Count(g.place, Live) == Count(old(g).place, Live) + i
      {
        wg.n := wg.n + 1;
        SpawnReady(cfg, g, b);
        StepInv(cfg, g, Spawn(b));
        SpawnMirrors(pending, cfg, g, b);
        g := Apply(cfg, g, Spawn(b));
        i := i + 1;
      }
    }

    // enqueue as one caller runs it: its critical section, then its dispatch loop.
    method Submit(d: Decision, now: int, wg: WaitGroup)
      requires Valid() && d.namespace == ns && g.clock <= now
      modifies this, wg
      ensures Valid() && g.accepted == old(g).accepted + [d]
      ensures d.desiredMinScale == 1 ==> pending == map[]
      ensures d.desiredMinScale != 1 ==> d.KeyOf() in pending && wg.n == old(wg.n)
      ensures wg.n - old(wg.n) == Count(g.place, Live) - Count(old(g).place, Live)
    {
      hide Inv, Apply, Enabled, Handed, Mirrors, Agrees, Count;
      ghost var before := g;
      var batch, order := Enqueue(d, now);
      EnqueueKeeps(cfg, before, d, now, order, batch, pending);
      StepInv(cfg, before, LaneMachine.Enqueue(d, now, order));
      Dispatch(batch, |before.batches|, wg);
    }

    // The select between a free slot and the context's end. When both are ready
    // either may be taken, here by `prefersSlot`; when neither is, it blocks.
    method Acquire(ghost t: Ticket, done: bool, prefersSlot: bool) returns (r: Selected)
      requires Valid() && At(g, t, Waiting)
      modifies this
      ensures Valid()
      ensures r == Acquired ==>
        Enabled(cfg, old(g), LaneMachine.Acquire(t)) && g == Apply(cfg, old(g), LaneMachine.Acquire(t))
      ensures r == GaveUp ==> done && Enabled(cfg, old(g), GiveUp(t)) && g == Apply(cfg, old(g), GiveUp(t))
      ensures r == Blocked ==> !done && !Enabled(cfg, old(g), LaneMachine.Acquire(t)) && g == old(g)
      ensures cfg.maxInFlight <= 0 ==> r == Acquired
    {
      hide Inv;
      if cfg.maxInFlight <= 0 || (slots < cfg.maxInFlight && (prefersSlot || !done)) {
        if cfg.maxInFlight > 0 { slots := slots + 1; }
        StepInv(cfg, g, LaneMachine.Acquire(t));
        g := Apply(cfg, g, LaneMachine.Acquire(t));
        r := Acquired;
      } else if done {
        StepInv(cfg, g, GiveUp(t));
        g := Apply(cfg, g, GiveUp(t));
        r := GaveUp;
      } else {
        r := Blocked;
      }
    }

    method BeginPatch(ghost t: Ticket) returns (cur: int)
      requires Valid() && At(g, t, Holding)
      modifies this
      ensures Valid() && g == Apply(cfg, old(g), Begin(t)) && cur == g.inflight
    {
      hide Inv;
      inflight := inflight + 1;
      cur := inflight;
      StepInv(cfg, g, Begin(t));
      g := Apply(cfg, g, Begin(t));
    }

    // Books the result of a Patch; `due` carries the attempts of a sink call.
    method EndPatch(d: Decision, ok: bool, ghost t: Ticket) returns (due: Option<nat>)
      requires Valid() && At(g, t, Patching) && g.accepted[t] == d
      modifies this
      ensures Valid() && g == Apply(cfg, old(g), End(t, ok))
      ensures due == g.done[|old(g).done|].due
    {
      hide Inv, Apply, Mirrors, Agrees;
      EndAgrees(cfg, g, t, ok, pending, failures, timer, nextTimer, inflight, slots);
      inflight := inflight - 1;
      due := None;
      if ok {
        failures := failures - {d.KeyOf()};
      } else {
        var count := (if d.KeyOf() in failures then failures[d.KeyOf()] else 0) + 1;
        failures := failures[d.KeyOf() := count];
        if count >= cfg.maxFailures && cfg.hasSink { due := Some(count); }
      }
      StepInv(cfg, g, End(t, ok));
      StepKeepsIdentity(cfg, g, End(t, ok));
      g := Apply(cfg, g, End(t, ok));
    }

    method ReleaseSlot(ghost t: Ticket)
      requires Valid() && t < |g.place| && g.place[t].Settled? && g.place[t].due.None?
      modifies this
      ensures Valid() && g == Apply(cfg, old(g), Release(t))
    {
      hide Inv;
      if cfg.maxInFlight > 0 { slots := slots - 1; }
      StepInv(cfg, g, Release(t));
      g := Apply(cfg, g, Release(t));
    }
  }

  // The decision map of the code and the ticket map of the machine agree.
  ghost predicate Mirrors(pending: map<Key, Decision>, g: Lane) {
    && pending.Keys == g.pending.Keys
    && forall k :: k in pending ==> g.pending[k] < |g.accepted| && pending[k] == g.accepted[g.pending[k]]
  }

  ghost predicate Agrees(failures: map<Key, nat>, timer: Option<TimerId>, nextTimer: TimerId,
                         inflight: int, slots: int, g: Lane) {
    && failures == g.failures && timer == g.timer && nextTimer == g.nextTimer
    && inflight == g.inflight && slots == g.slots
  }

  // The batch handed to dispatch is the machine's new batch, decision by decision.
  ghost predicate Handed(before: Lane, after: Lane, batch: seq<Decision>) {
    if batch == [] then after.batches == before.batches
    else
      && |after.batches| == |before.batches| + 1
      && var b := after.batches[|before.batches|];
         && b.next == 0 && |b.items| == |batch|
         && forall i :: 0 <= i < |batch| ==> b.items[i] < |after.accepted| && batch[i] == after.accepted[b.items[i]]
  }

  lemma MirrorsWrite(pending: map<Key, Decision>, g: Lane, d: Decision, now: int)
    requires Mirrors(pending, g)
    ensures Mirrors(pending[d.KeyOf() := d], Write(g, d, now))
  {
  }

  lemma EmptyOrder(pending: map<Key, Ticket>, order: seq<Key>)
    requires IsOrder(pending, order)
    ensures pending == map[] ==> order == []
  {
    assert order != [] ==> order[0] in order;
  }

  lemma MirrorsOrder(pending: map<Key, Decision>, g: Lane, order: seq<Key>)
    requires Mirrors(pending, g) && NoDup(order) && (forall k :: k in order <==> k in pending)
    ensures IsOrder(g.pending, order) && (order == [] <==> g.pending == map[])
  {
    if k :| k in g.pending { assert k in order; } else { assert g.pending == map[]; }
    EmptyOrder(g.pending, order);
  }

  lemma DrainHands(g: Lane, order: seq<Key>, batch: seq<Decision>)
    requires IsOrder(g.pending, order) && (order == [] <==> g.pending == map[]) && |batch| == |order|
    requires forall i :: 0 <= i < |order| ==>
      order[i] in g.pending && g.pending[order[i]] < |g.accepted| && batch[i] == g.accepted[g.pending[order[i]]]
    ensures Handed(g, Drain(g, order), batch)
  {
    hide MoveToBatch, NoDup;
  }

  lemma DrainEmpties(g: Lane, order: seq<Key>)
    requires IsOrder(g.pending, order)
    ensures Drain(g, order).pending == map[]
  {
    hide MoveToBatch, IsOrder;
  }

  lemma MirrorsBatch(pending: map<Key, Decision>, g: Lane, order: seq<Key>, batch: seq<Decision>)
    requires Mirrors(pending, g) && (forall k :: k in order <==> k in pending)
    requires |batch| == |order| && forall i :: 0 <= i < |order| ==> batch[i] == pending[order[i]]
    ensures forall i :: 0 <= i < |order| ==>
      order[i] in g.pending && g.pending[order[i]] < |g.accepted| && batch[i] == g.accepted[g.pending[order[i]]]
  {
    assert forall i :: 0 <= i < |order| ==> order[i] in order;
  }

  lemma MirrorsDrain(pending: map<Key, Decision>, g: Lane, order: seq<Key>, batch: seq<Decision>)
    requires Mirrors(pending, g) && NoDup(order) && (forall k :: k in order <==> k in pending)
    requires |batch| == |order| && forall i :: 0 <= i < |order| ==> batch[i] == pending[order[i]]
    ensures IsOrder(g.pending, order) && Mirrors(map[], Drain(g, order))
    ensures Handed(g, Drain(g, order), batch)
  {
    MirrorsOrder(pending, g, order);
    DrainEmpties(g, order);
    MirrorsBatch(pending, g, order, batch);
    DrainHands(g, order, batch);
    hide NoDup, IsOrder, Drain, Handed;
  }

  lemma MirrorsRetimed(pending: map<Key, Decision>, g: Lane, q: Lane)
    requires Mirrors(pending, g) && q == g.(timers := q.timers)
    ensures Mirrors(pending, q)
  {
  }

  lemma FastAgrees(cfg: Config, g: Lane, d: Decision, now: int, order: seq<Key>, batch: seq<Decision>,
                   failures: map<Key, nat>, timer: Option<TimerId>, nextTimer: TimerId, inflight: int, slots: int)
    requires g.ns == d.namespace && g.clock <= now && d.desiredMinScale == 1
    requires IsOrder(Write(g, d, now).pending, order)
    requires var w := Drain(Write(g, d, now), order); Mirrors(map[], w) && Handed(Write(g, d, now), w, batch)
    requires Agrees(failures, timer, nextTimer, inflight, slots, g)
    ensures Enabled(cfg, g, LaneMachine.Enqueue(d, now, order))
    ensures var w := Apply(cfg, g, LaneMachine.Enqueue(d, now, order));
      Mirrors(map[], w) && Handed(g, w, batch) && Agrees(failures, None, nextTimer, inflight, slots, w)
  {
    hide Mirrors;
    assert Write(g, d, now).batches == g.batches;
  }

  lemma SlowAgrees(cfg: Config, g: Lane, d: Decision, now: int, order: seq<Key>, pending: map<Key, Decision>,
                   failures: map<Key, nat>, timer: Option<TimerId>, nextTimer: TimerId, inflight: int, slots: int)
    requires g.ns == d.namespace && g.clock <= now && d.desiredMinScale != 1
    requires Mirrors(pending, Write(g, d, now)) && Agrees(failures, timer, nextTimer, inflight, slots, g)
    ensures Enabled(cfg, g, LaneMachine.Enqueue(d, now, order))
    ensures var w := Apply(cfg, g, LaneMachine.Enqueue(d, now, order));
      && Mirrors(pending, w) && Handed(g, w, [])
      && (if timer.None? then Agrees(failures, Some(nextTimer), nextTimer + 1, inflight, slots, w)
          else Agrees(failures, timer, nextTimer, inflight, slots, w))
      && (timer.None? ==> nextTimer in w.timers && w.timers[nextTimer] == Armed(now + cfg.window))
  {
  }

  lemma FlushAgrees(cfg: Config, g: Lane, id: TimerId, order: seq<Key>, batch: seq<Decision>,
                    failures: map<Key, nat>, timer: Option<TimerId>, nextTimer: TimerId, inflight: int, slots: int)
    requires id in g.timers && g.timers[id].Fired? && IsOrder(g.pending, order)
    requires var q := g.(timers := g.timers - {id});
      Mirrors(map[], Drain(q, order)) && Handed(q, Drain(q, order), batch)
    requires Agrees(failures, timer, nextTimer, inflight, slots, g)
    ensures Enabled(cfg, g, Flush(id, order))
    ensures var w := Apply(cfg, g, Flush(id, order));
      Mirrors(map[], w) && Handed(g, w, batch) && Agrees(failures, None, nextTimer, inflight, slots, w)
  {
    hide Mirrors;
  }

  lemma EndAgrees(cfg: Config, g: Lane, t: Ticket, ok: bool, pending: map<Key, Decision>,
                  failures: map<Key, nat>, timer: Option<TimerId>, nextTimer: TimerId, inflight: int, slots: int)
    requires At(g, t, Patching) && Mirrors(pending, g) && Agrees(failures, timer, nextTimer, inflight, slots, g)
    ensures var w := Apply(cfg, g, End(t, ok));
      var k := g.accepted[t].KeyOf();
      var count := FailuresOf(failures, k) + 1;
      && Mirrors(pending, w)
      && Agrees(if ok then failures - {k} else failures[k := count], timer, nextTimer, inflight - 1, slots, w)
      && |w.done| == |g.done| + 1
      && w.done[|g.done|].due == (if !ok && count >= cfg.maxFailures && cfg.hasSink then Some(count) else None)
  {
  }

  lemma SpawnReady(cfg: Config, g: Lane, b: nat)
    requires Inv(cfg, g) && b < |g.batches| && g.batches[b].next < |g.batches[b].items|
    ensures Enabled(cfg, g, Spawn(b))
  {
  }

  lemma SpawnMirrors(pending: map<Key, Decision>, cfg: Config, g: Lane, b: nat)
    requires Mirrors(pending, g) && Enabled(cfg, g, Spawn(b))
    ensures Mirrors(pending, Apply(cfg, g, Spawn(b)))
  {
  }

  lemma EnqueueKeeps(cfg: Config, g: Lane, d: Decision, now: int, order: seq<Key>, batch: seq<Decision>,
                     pending: map<Key, Decision>)
    requires Enabled(cfg, g, LaneMachine.Enqueue(d, now, order))
    requires var w := Apply(cfg, g, LaneMachine.Enqueue(d, now, order)); Handed(g, w, batch) && Mirrors(pending, w)
    ensures var w := Apply(cfg, g, LaneMachine.Enqueue(d, now, order));
      && w.accepted == g.accepted + [d]
      && (if d.desiredMinScale == 1 then pending == map[] else d.KeyOf() in pending && batch == [])
      && (batch == [] || (|g.batches| < |w.batches| && w.batches[|g.batches|].next == 0
                          && |w.batches[|g.batches|].items| == |batch|))
  {
  }
}
