// One namespace lane of the flusher as a step machine. Every step is one
// critical section of the lane, one semaphore operation or one timer event, so
// a run of steps is one interleaving of enqueuers, timer callbacks and workers.
//
// An accepted decision is identified by its ticket, its position in the
// acceptance log; `place` is the ledger that says where each ticket is now.
module LaneMachine {
  import opened Basics
  import opened Decisions

  type Ticket = nat
  type TimerId = nat

  // A timer that was stopped in time, or whose callback has run, is forgotten.
  datatype Timer = Armed(deadline: int) | Fired(deadline: int)

  // `entry` is the position of the result in the completion log.
  datatype Ending = Resolved(entry: nat) | Cancelled

  datatype Place =
    | Superseded(winner: Ticket)                 // overwritten in the pending map
    | Pending
    | Drained(batch: nat, index: nat)            // taken out, goroutine not spawned yet
    | Waiting                                    // worker in front of the semaphore
    | Holding                                    // worker past the semaphore
    | Patching                                   // worker inside the Patch bracket
    | Settled(entry: nat, due: Option<nat>)      // result recorded; sink call maybe due
    | Leaving(how: Ending)                       // slot returned, wait group not yet told
    | Gone(how: Ending)

  // `for _, d := range batch` at loop index `next`.
  datatype Batch = Batch(items: seq<Ticket>, next: nat)

  // `due` is the sink call decided under the lock, if any.
  datatype Completion = Completion(ticket: Ticket, key: Key, ok: bool, due: Option<nat>)

  datatype SinkCall = SinkCall(entry: nat, ticket: Ticket, attempts: nat)

  datatype Lane = Lane(
    ns: string,
    pending: map<Key, Ticket>,
    failures: map<Key, nat>,
    timer: Option<TimerId>,
    inflight: int,
    slots: int,
    timers: map<TimerId, Timer>,
    nextTimer: TimerId,
    clock: int,
    timerStopRan: bool,
    batches: seq<Batch>,
    accepted: seq<Decision>,
    writtenAt: seq<int>,
    place: seq<Place>,
    drains: seq<Ticket>,
    calls: seq<Ticket>,
    done: seq<Completion>,
    sinks: seq<SinkCall>)

  function NewLane(ns: string, now: int): Lane {
    Lane(ns, map[], map[], None, 0, 0, map[], 0, now, false, [], [], [], [], [], [], [], [])
  }

  datatype Step =
    | Enqueue(d: Decision, now: int, order: seq<Key>)
    | Fire(id: TimerId, now: int)
    | Flush(id: TimerId, order: seq<Key>)
    | StopTimer
    | Spawn(b: nat)
    | Acquire(t: Ticket)
    | GiveUp(t: Ticket)
    | Begin(t: Ticket)
    | End(t: Ticket, ok: bool)
    | Sink(t: Ticket)
    | Release(t: Ticket)
    | Exit(t: Ticket)

  // ---- pieces ----

  // Map iteration visits every key once, in an order nobody controls.
  ghost predicate IsOrder(pending: map<Key, Ticket>, order: seq<Key>) {
    NoDup(order) && (forall k :: k in order <==> k in pending)
  }

  function Tickets(pending: map<Key, Ticket>, order: seq<Key>): (ts: seq<Ticket>)
    requires forall k :: k in order ==> k in pending
    ensures |ts| == |order|
    ensures forall i :: 0 <= i < |ts| ==> ts[i] == pending[order[i]]
  {
    seq(|order|, i requires 0 <= i < |order| => pending[order[i]])
  }

  function Put(place: seq<Place>, t: Ticket, p: Place): (r: seq<Place>)
    ensures |r| == |place|
    ensures forall i :: 0 <= i < |place| ==> r[i] == if i == t then p else place[i]
  {
    if t < |place| then place[t := p] else place
  }

  function MoveToBatch(place: seq<Place>, ts: seq<Ticket>, b: nat): (r: seq<Place>)
    ensures |r| == |place|
    ensures forall i :: 0 <= i < |place| ==> r[i] == if i in ts then Drained(b, IndexOf(ts, i)) else place[i]
  {
    seq(|place|, i requires 0 <= i < |place| => if i in ts then Drained(b, IndexOf(ts, i)) else place[i])
  }

  // Stop() on an armed timer forgets it; on a fired one its callback stays outstanding.
  function StopRecorded(s: Lane): Lane {
    match s.timer
    case None => s
    case Some(id) =>
      s.(timer := None,
         timers := if id in s.timers && s.timers[id].Armed? then s.timers - {id} else s.timers)
  }

  ghost function Drain(s: Lane, order: seq<Key>): Lane
    requires IsOrder(s.pending, order)
  {
    var q := StopRecorded(s);
    if q.pending == map[] then q
    else
      var ts := Tickets(q.pending, order);
      q.(pending := map[],
         batches := q.batches + [Batch(ts, 0)],
         drains := q.drains + ts,
         place := MoveToBatch(q.place, ts, |q.batches|))
  }

  // The write that opens enqueue: install the decision, overwriting its key.
  function Write(s: Lane, d: Decision, now: int): Lane {
    var t := |s.accepted|;
    var k := d.KeyOf();
    s.(accepted := s.accepted + [d],
       writtenAt := s.writtenAt + [now],
       clock := now,
       pending := s.pending[k := t],
       place := (if k in s.pending then Put(s.place, s.pending[k], Superseded(t)) else s.place) + [Pending])
  }

  function Arm(cfg: Config, s: Lane): Lane {
    if s.timer.Some? then s
    else s.(timer := Some(s.nextTimer),
            timers := s.timers[s.nextTimer := Armed(s.clock + cfg.window)],
            nextTimer := s.nextTimer + 1)
  }

  function FailuresOf(failures: map<Key, nat>, k: Key): nat {
    if k in failures then failures[k] else 0
  }

  function Settle(cfg: Config, s: Lane, t: Ticket, ok: bool): Lane
    requires t < |s.accepted| && t < |s.place|
  {
    var k := s.accepted[t].KeyOf();
    var count := FailuresOf(s.failures, k) + 1;
    var due := if !ok && count >= cfg.maxFailures && cfg.hasSink then Some(count) else None;
    s.(inflight := s.inflight - 1,
       failures := if ok then s.failures - {k} else s.failures[k := count],
       done := s.done + [Completion(t, k, ok, due)],
       place := s.place[t := Settled(|s.done|, due)])
  }

  // ---- steps ----

  ghost predicate At(s: Lane, t: Ticket, p: Place) {
    t < |s.place| && t < |s.accepted| && s.place[t] == p
  }

  ghost predicate Enabled(cfg: Config, s: Lane, step: Step) {
    match step
    case Enqueue(d, now, order) =>
      && d.namespace == s.ns && s.clock <= now
      && (d.desiredMinScale == 1 ==> IsOrder(Write(s, d, now).pending, order))
    case Fire(id, now) => id in s.timers && s.timers[id].Armed? && s.timers[id].deadline <= now && s.clock <= now
    case Flush(id, order) => id in s.timers && s.timers[id].Fired? && IsOrder(s.pending, order)
    case StopTimer => true
    case Spawn(b) =>
      && b < |s.batches| && s.batches[b].next < |s.batches[b].items|
      && s.batches[b].items[s.batches[b].next] < |s.place|
    case Acquire(t) => At(s, t, Waiting) && (cfg.maxInFlight > 0 ==> s.slots < cfg.maxInFlight)
    case GiveUp(t) => At(s, t, Waiting) && cfg.maxInFlight > 0
    case Begin(t) => At(s, t, Holding)
    case End(t, ok) => At(s, t, Patching)
    case Sink(t) => t < |s.place| && s.place[t].Settled? && s.place[t].due.Some?
    case Release(t) => t < |s.place| && s.place[t].Settled? && s.place[t].due.None?
    case Exit(t) => t < |s.place| && s.place[t].Leaving?
  }

  ghost function Apply(cfg: Config, s: Lane, step: Step): Lane
    requires Enabled(cfg, s, step)
  {
    match step
    case Enqueue(d, now, order) =>
      if d.desiredMinScale == 1 then Drain(Write(s, d, now), order) else Arm(cfg, Write(s, d, now))
    case Fire(id, now) => s.(timers := s.timers[id := Fired(s.timers[id].deadline)], clock := now)
    case Flush(id, order) => Drain(s.(timers := s.timers - {id}), order)
    case StopTimer => StopRecorded(s).(timerStopRan := true)
    case Spawn(b) =>
      var t := s.batches[b].items[s.batches[b].next];
      s.(batches := s.batches[b := s.batches[b].(next := s.batches[b].next + 1)],
         place := s.place[t := Waiting])
    case Acquire(t) =>
      s.(place := s.place[t := Holding], slots := if cfg.maxInFlight > 0 then s.slots + 1 else s.slots)
    case GiveUp(t) => s.(place := s.place[t := Leaving(Cancelled)])
    case Begin(t) => s.(place := s.place[t := Patching], inflight := s.inflight + 1, calls := s.calls + [t])
    case End(t, ok) => Settle(cfg, s, t, ok)
    case Sink(t) =>
      var p := s.place[t];
      s.(place := s.place[t := Settled(p.entry, None)], sinks := s.sinks + [SinkCall(p.entry, t, p.due.value)])
    case Release(t) =>
      s.(place := s.place[t := Leaving(Resolved(s.place[t].entry))],
         slots := if cfg.maxInFlight > 0 then s.slots - 1 else s.slots)
    case Exit(t) => s.(place := s.place[t := Gone(s.place[t].how)])
  }
}
