// What the flusher guarantees in every state of every schedule.
module FlusherTheorems {
  import opened Basics
  import opened Decisions
  import opened LaneMachine
  import opened LaneInvariants
  import opened ManagerMachine

  // m is the state of a manager built with configuration c after the schedule `run`.
  ghost predicate Reaches(c: Config, run: seq<MStep>, m: Manager) {
    IsRun(WithDefaults(c), NEW_MANAGER, run) && After(WithDefaults(c), NEW_MANAGER, run) == m
  }

  lemma ReachedInv(c: Config, run: seq<MStep>, m: Manager)
    requires Reaches(c, run, m)
    ensures MInv(WithDefaults(c), m)
  {
    RunInv(WithDefaults(c), NEW_MANAGER, run);
  }

  // ---- bounded concurrency ----

  lemma BoundedConcurrency(c: Config, run: seq<MStep>, m: Manager, i: nat)
    requires Reaches(c, run, m) && i < |m.lanes|
    ensures m.wg == LiveWorkers(m.lanes)
    ensures var l := m.lanes[i];
      && l.inflight == Count(l.place, InPatch)
      && (WithDefaults(c).maxInFlight > 0 ==>
            l.inflight <= l.slots == Count(l.place, HoldsSlot) <= WithDefaults(c).maxInFlight)
  {
    ReachedInv(c, run, m);
    CountLe(m.lanes[i].place, InPatch, HoldsSlot);
  }

  // ---- latest wins ----

  ghost predicate LastOfKey(l: Lane, t: Ticket) {
    t < |l.accepted| && forall u :: t < u < |l.accepted| ==> KeyAt(l, u) != KeyAt(l, t)
  }

  lemma LatestWins(c: Config, run: seq<MStep>, m: Manager, i: nat)
    requires Reaches(c, run, m) && i < |m.lanes|
    ensures var l := m.lanes[i];
      // per key, tickets are drained in the order in which they were accepted
      && (forall a, b :: 0 <= a < b < |l.drains| ==>
            && l.drains[a] < |l.accepted| && l.drains[b] < |l.accepted|
            && (KeyAt(l, l.drains[a]) == KeyAt(l, l.drains[b]) ==> l.drains[a] < l.drains[b]))
      // the last decision accepted for a key is the pending one, or the last one drained
      && (forall t :: LastOfKey(l, t) ==>
            if KeyAt(l, t) in l.pending then l.pending[KeyAt(l, t)] == t
            else
              && t in l.drains
              && forall u :: u in l.drains && u < |l.accepted| && KeyAt(l, u) == KeyAt(l, t) ==> u <= t)
      // between critical sections only this namespace's slow decisions are pending
      && (forall k :: k in l.pending ==>
            k.namespace == l.ns && l.pending[k] < |l.accepted| && l.accepted[l.pending[k]].desiredMinScale != 1)
  {
    ReachedInv(c, run, m);
    var l := m.lanes[i];
    assert Inv(WithDefaults(c), l);
    forall t | LastOfKey(l, t)
      ensures KeyAt(l, t) in l.pending ==> l.pending[KeyAt(l, t)] == t
      ensures KeyAt(l, t) !in l.pending ==> t in l.drains
    {
      LastIsCurrent(l, t);
    }
  }

  lemma LastIsCurrent(l: Lane, t: Ticket)
    requires Shape(l) && PendingOk(l) && DrainsOk(l) && DrainOrderOk(l) && LastOfKey(l, t)
    ensures if KeyAt(l, t) in l.pending then l.pending[KeyAt(l, t)] == t else t in l.drains
  {
    assert !l.place[t].Superseded?;
    assert l.place[t] != Pending ==> t in l.drains;
  }

  // ---- debounce ----

  // Until Stop runs, whatever is pending has a timer that is armed for no later
  // than one window after the write, or whose callback is already on its way.
  lemma DebounceBound(c: Config, run: seq<MStep>, m: Manager, i: nat, k: Key)
    requires Reaches(c, run, m) && i < |m.lanes| && !m.stopped && k in m.lanes[i].pending
    ensures var l := m.lanes[i];
      && l.timer.Some? && l.timer.value in l.timers && l.pending[k] < |l.writtenAt|
      && (l.timers[l.timer.value].Fired?
          || l.timers[l.timer.value].deadline <= l.writtenAt[l.pending[k]] + WithDefaults(c).window)
  {
    ReachedInv(c, run, m);
    assert Inv(WithDefaults(c), m.lanes[i]);
  }

  // ---- failure escalation ----

  // The sink sees exactly the failed completions whose run of failures has
  // reached the threshold, each once, with the length of that run.
  lemma FailureEscalation(c: Config, run: seq<MStep>, m: Manager, i: nat)
    requires Reaches(c, run, m) && i < |m.lanes|
    ensures var l := m.lanes[i];
      && (forall k :: FailuresOf(l.failures, k) == TrailingFailures(l.done, k))
      && (forall a, b :: 0 <= a < b < |l.sinks| ==> l.sinks[a].entry != l.sinks[b].entry)
      && (forall e: nat, n: nat :: e < |l.done| && l.done[e].ticket < |l.place| ==>
            (Escalation(WithDefaults(c), l.done, e) == Some(n)
             <==> SinkCall(e, l.done[e].ticket, n) in l.sinks
                  || l.place[l.done[e].ticket] == Settled(e, Some(n))))
      && (forall j :: 0 <= j < |l.sinks| ==>
            l.sinks[j].entry < |l.done| && l.done[l.sinks[j].entry].ticket == l.sinks[j].ticket)
  {
    ReachedInv(c, run, m);
    var cfg := WithDefaults(c);
    var l := m.lanes[i];
    assert Inv(cfg, l);
    hide Escalation, TrailingFailures;
    assert forall e :: 0 <= e < |l.done| ==> Escalation(cfg, l.done, e) == l.done[e].due;
    forall e: nat, n: nat | e < |l.done|
      ensures l.done[e].due == Some(n)
        <==> SinkCall(e, l.done[e].ticket, n) in l.sinks || l.place[l.done[e].ticket] == Settled(e, Some(n))
    {
      SinkIffDue(l, e, n);
    }
  }

  lemma SinkIffDue(l: Lane, e: nat, n: nat)
    requires Shape(l) && DoneOk(l) && SinksOk(l) && e < |l.done|
    ensures l.done[e].due == Some(n)
      <==> SinkCall(e, l.done[e].ticket, n) in l.sinks || l.place[l.done[e].ticket] == Settled(e, Some(n))
  {
  }

  // ---- one Patch call, one result ----

  ghost predicate Quiescent(l: Lane) {
    && l.pending == map[]
    && (forall b :: 0 <= b < |l.batches| ==> l.batches[b].next == |l.batches[b].items|)
    && (forall t :: 0 <= t < |l.place| ==> !Member(l.place[t], Live))
  }

  lemma OnePatchOneResult(c: Config, run: seq<MStep>, m: Manager, i: nat)
    requires Reaches(c, run, m) && i < |m.lanes|
    ensures var l := m.lanes[i];
      && NoDup(l.drains) && NoDup(l.calls)
      && (forall a, b :: 0 <= a < b < |l.done| ==> l.done[a].ticket != l.done[b].ticket)
      && (forall t :: t in l.calls ==> t in l.drains)
      && (forall e :: 0 <= e < |l.done| ==> l.done[e].ticket in l.calls)
      && (Quiescent(l) ==> forall t :: t in l.drains ==>
            t < |l.place| &&
            if l.place[t] == Gone(Cancelled) then t !in l.calls && m.cancelled
            else t in l.calls && exists e :: 0 <= e < |l.done| && l.done[e].ticket == t)
  {
    ReachedInv(c, run, m);
    assert m.cancelled || NoneAbandoned(m.lanes[i]);
    OnePatch(WithDefaults(c), m.lanes[i]);
    if Quiescent(m.lanes[i]) { QuietResults(WithDefaults(c), m.lanes[i]); }
  }

  lemma OnePatch(cfg: Config, l: Lane)
    requires Inv(cfg, l)
    ensures NoDup(l.drains) && NoDup(l.calls)
    ensures forall a, b :: 0 <= a < b < |l.done| ==> l.done[a].ticket != l.done[b].ticket
    ensures forall t :: t in l.calls ==> t in l.drains
    ensures forall e :: 0 <= e < |l.done| ==> l.done[e].ticket in l.calls
  {
  }

  lemma QuietResults(cfg: Config, l: Lane)
    requires Inv(cfg, l) && Quiescent(l)
    ensures forall t :: t in l.drains ==>
      t < |l.place| &&
      if l.place[t] == Gone(Cancelled) then t !in l.calls
      else t in l.calls && exists e :: 0 <= e < |l.done| && l.done[e].ticket == t
  {
    forall t | t in l.drains
      ensures t < |l.place|
      ensures l.place[t] == Gone(Cancelled) ==> t !in l.calls
      ensures l.place[t] != Gone(Cancelled) ==> t in l.calls && exists e :: 0 <= e < |l.done| && l.done[e].ticket == t
    {
      assert !Member(l.place[t], Live) && !l.place[t].Drained?;
      if l.place[t] != Gone(Cancelled) {
        assert WasSettled(l.place[t]) && l.done[EntryOf(l.place[t])].ticket == t;
      }
    }
  }

  // ---- conservation ----

  datatype Bin = BinSuperseded | BinPending | BinDrained | BinWaiting | BinPatching | BinResolved | BinAbandoned

  function BinOf(p: Place): Bin {
    match p
    case Superseded(_) => BinSuperseded
    case Pending => BinPending
    case Drained(_, _) => BinDrained
    case Waiting => BinWaiting
    case Holding => BinWaiting
    case Patching => BinPatching
    case Settled(_, _) => BinResolved
    case Leaving(how) => if how.Cancelled? then BinAbandoned else BinResolved
    case Gone(how) => if how.Cancelled? then BinAbandoned else BinResolved
  }

  // The decisions whose tickets are in one of the given bins.
  function Gather(accepted: seq<Decision>, place: seq<Place>, bins: set<Bin>): multiset<Decision>
    requires |accepted| == |place|
  {
    if place == [] then multiset{}
    else
      var n := |place| - 1;
      Gather(accepted[..n], place[..n], bins) + (if BinOf(place[n]) in bins then multiset{accepted[n]} else multiset{})
  }

  lemma {:induction false} GatherUnion(accepted: seq<Decision>, place: seq<Place>, x: set<Bin>, y: set<Bin>)
    requires |accepted| == |place| && x !! y
    ensures Gather(accepted, place, x + y) == Gather(accepted, place, x) + Gather(accepted, place, y)
  {
    hide BinOf;
    if place != [] {
      var n := |place| - 1;
      GatherUnion(accepted[..n], place[..n], x, y);
    }
  }

  const ALL_BINS := {BinSuperseded, BinPending, BinDrained, BinWaiting, BinPatching, BinResolved, BinAbandoned}

  lemma {:induction false} GatherAll(accepted: seq<Decision>, place: seq<Place>)
    requires |accepted| == |place|
    ensures multiset(accepted) == Gather(accepted, place, ALL_BINS)
  {
    if place == [] {
      assert accepted == [];
    } else {
      var n := |place| - 1;
      GatherAll(accepted[..n], place[..n]);
      AnyBin(place[n]);
      hide BinOf;
      assert accepted == accepted[..n] + [accepted[n]];
    }
  }

  lemma AnyBin(p: Place)
    ensures BinOf(p) in ALL_BINS
  {
  }

  // The worker's side of the split, then the queue's.
  lemma GatherSplit(accepted: seq<Decision>, place: seq<Place>)
    requires |accepted| == |place|
    ensures multiset(accepted)
         == Gather(accepted, place, {BinSuperseded}) + Gather(accepted, place, {BinPending})
          + Gather(accepted, place, {BinDrained}) + Gather(accepted, place, {BinWaiting})
          + Gather(accepted, place, {BinPatching, BinResolved}) + Gather(accepted, place, {BinAbandoned})
  {
    hide Gather;
    GatherAll(accepted, place);
    var worker := {BinWaiting, BinPatching, BinResolved, BinAbandoned};
    var rest := {BinPatching, BinResolved, BinAbandoned};
    var queue := {BinSuperseded, BinPending, BinDrained};
    assert ALL_BINS == queue + worker;
    GatherUnion(accepted, place, queue, worker);
    assert worker == {BinWaiting} + rest;
    GatherUnion(accepted, place, {BinWaiting}, rest);
    assert rest == {BinPatching, BinResolved} + {BinAbandoned};
    GatherUnion(accepted, place, {BinPatching, BinResolved}, {BinAbandoned});
    assert queue == {BinSuperseded} + {BinPending, BinDrained};
    GatherUnion(accepted, place, {BinSuperseded}, {BinPending, BinDrained});
    assert {BinPending, BinDrained} == {BinPending} + {BinDrained};
    GatherUnion(accepted, place, {BinPending}, {BinDrained});
  }

  // The decisions behind a list of tickets.
  function Chosen(accepted: seq<Decision>, ts: seq<Ticket>): multiset<Decision>
    requires forall i :: 0 <= i < |ts| ==> ts[i] < |accepted|
  {
    if ts == [] then multiset{} else multiset{accepted[ts[0]]} + Chosen(accepted, ts[1..])
  }

  lemma {:induction false} ChosenPrefix(accepted: seq<Decision>, n: nat, ts: seq<Ticket>)
    requires n <= |accepted| && forall i :: 0 <= i < |ts| ==> ts[i] < n
    ensures Chosen(accepted[..n], ts) == Chosen(accepted, ts)
  {
    if ts != [] { ChosenPrefix(accepted, n, ts[1..]); }
  }

  lemma {:induction false} ChosenWithout(accepted: seq<Decision>, ts: seq<Ticket>, i: nat)
    requires i < |ts| && forall j :: 0 <= j < |ts| ==> ts[j] < |accepted|
    ensures Chosen(accepted, ts) == Chosen(accepted, ts[..i] + ts[i + 1..]) + multiset{accepted[ts[i]]}
    decreases i
  {
    var rest := ts[..i] + ts[i + 1..];
    if i == 0 {
      assert rest == ts[1..];
    } else {
      ChosenWithout(accepted, ts[1..], i - 1);
      assert rest[1..] == ts[1..][..i - 1] + ts[1..][i..];
    }
  }

  // ts lists the tickets of the bins, each once.
  ghost predicate Lists(place: seq<Place>, bins: set<Bin>, ts: seq<Ticket>) {
    && NoDup(ts)
    && (forall i :: 0 <= i < |ts| ==> ts[i] < |place| && BinOf(place[ts[i]]) in bins)
    && (forall t :: 0 <= t < |place| && BinOf(place[t]) in bins ==> t in ts)
  }

  lemma ListsWithoutLast(place: seq<Place>, bins: set<Bin>, ts: seq<Ticket>, i: nat)
    requires place != [] && Lists(place, bins, ts) && i < |ts| && ts[i] == |place| - 1
    ensures Lists(place[..|place| - 1], bins, ts[..i] + ts[i + 1..])
  {
    hide BinOf;
    var n := |place| - 1;
    var rest := ts[..i] + ts[i + 1..];
    assert forall j :: 0 <= j < |rest| ==> rest[j] == ts[if j < i then j else j + 1];
    forall t | 0 <= t < n && BinOf(place[t]) in bins
      ensures t in rest
    {
      var j :| 0 <= j < |ts| && ts[j] == t;
      assert rest[if j < i then j else j - 1] == t;
    }
  }

  lemma ListsWithoutOther(place: seq<Place>, bins: set<Bin>, ts: seq<Ticket>)
    requires place != [] && Lists(place, bins, ts) && BinOf(place[|place| - 1]) !in bins
    ensures Lists(place[..|place| - 1], bins, ts)
  {
    hide BinOf;
  }

  lemma GatherLast(accepted: seq<Decision>, place: seq<Place>, bins: set<Bin>)
    requires |accepted| == |place| && place != []
    ensures var n := |place| - 1;
      Gather(accepted, place, bins)
      == Gather(accepted[..n], place[..n], bins)
         + (if BinOf(place[n]) in bins then multiset{accepted[n]} else multiset{})
  {
    hide BinOf;
  }

  lemma FirstListed(place: seq<Place>, bins: set<Bin>, ts: seq<Ticket>)
    requires Lists(place, bins, ts) && ts != []
    ensures place != []
  {
    assert ts[0] < |place|;
  }

  // Any such list holds exactly the bins' decisions.
  lemma {:induction false} Enumerates(accepted: seq<Decision>, place: seq<Place>, bins: set<Bin>, ts: seq<Ticket>)
    requires |accepted| == |place| && Lists(place, bins, ts)
    ensures forall i :: 0 <= i < |ts| ==> ts[i] < |accepted|
    ensures Chosen(accepted, ts) == Gather(accepted, place, bins)
    decreases |place|
  {
    if place == [] {
      if ts != [] { FirstListed(place, bins, ts); }
    } else {
      var n := |place| - 1;
      GatherLast(accepted, place, bins);
      if BinOf(place[n]) in bins {
        EnumeratesWith(accepted, place, bins, ts);
      } else {
        EnumeratesWithout(accepted, place, bins, ts);
      }
      hide BinOf, Gather, Chosen, NoDup;
    }
  }

  lemma {:induction false} EnumeratesWithout(accepted: seq<Decision>, place: seq<Place>, bins: set<Bin>,
                                             ts: seq<Ticket>)
    requires |accepted| == |place| && place != [] && Lists(place, bins, ts) && BinOf(place[|place| - 1]) !in bins
    ensures forall i :: 0 <= i < |ts| ==> ts[i] < |accepted| - 1
    ensures Chosen(accepted, ts) == Gather(accepted[..|place| - 1], place[..|place| - 1], bins)
    decreases |place|, 0
  {
    hide BinOf, Gather, Chosen, NoDup;
    var n := |place| - 1;
    ListsWithoutOther(place, bins, ts);
    Enumerates(accepted[..n], place[..n], bins, ts);
    ChosenPrefix(accepted, n, ts);
  }

  lemma {:induction false} EnumeratesWith(accepted: seq<Decision>, place: seq<Place>, bins: set<Bin>, ts: seq<Ticket>)
    requires |accepted| == |place| && place != [] && Lists(place, bins, ts) && BinOf(place[|place| - 1]) in bins
    ensures forall i :: 0 <= i < |ts| ==> ts[i] < |accepted|
    ensures Chosen(accepted, ts)
         == Gather(accepted[..|place| - 1], place[..|place| - 1], bins) + multiset{accepted[|place| - 1]}
    decreases |place|, 0
  {
    hide BinOf, Gather, Chosen, NoDup;
    var n := |place| - 1;
    var i :| 0 <= i < |ts| && ts[i] == n;
    var rest := ts[..i] + ts[i + 1..];
    ChosenWithout(accepted, ts, i);
    ListsWithoutLast(place, bins, ts, i);
    hide Lists;
    Enumerates(accepted[..n], place[..n], bins, rest);
    ChosenPrefix(accepted, n, rest);
  }

  // What the dispatch loops still hold.
  function Undispatched(batches: seq<Batch>): seq<Ticket> {
    if batches == [] then []
    else
      var last := batches[|batches| - 1];
      Undispatched(batches[..|batches| - 1]) + (if last.next <= |last.items| then last.items[last.next..] else [])
  }

  lemma {:induction false} UndispatchedTickets(l: Lane, n: nat)
    requires Shape(l) && BatchesOk(l) && n <= |l.batches|
    ensures var ts := Undispatched(l.batches[..n]);
      && NoDup(ts)
      && (forall i :: 0 <= i < |ts| ==> ts[i] < |l.place| && l.place[ts[i]].Drained? && l.place[ts[i]].batch < n)
      && (forall t :: 0 <= t < |l.place| && l.place[t].Drained? && l.place[t].batch < n ==> t in ts)
  {
    hide BatchesOk, Shape;
    if n > 0 {
      UndispatchedTickets(l, n - 1);
      BatchTail(l, n - 1);
      BatchNext(l, n - 1);
      UndispatchedLast(l.batches, n);
      hide Undispatched;
      JoinTickets(l.place, Undispatched(l.batches[..n - 1]), l.batches[n - 1].items[l.batches[n - 1].next..], n - 1);
    }
  }

  lemma BatchNext(l: Lane, b: nat)
    requires Shape(l) && BatchesOk(l) && b < |l.batches|
    ensures l.batches[b].next <= |l.batches[b].items|
  {
  }

  lemma UndispatchedLast(batches: seq<Batch>, n: nat)
    requires 0 < n <= |batches| && batches[n - 1].next <= |batches[n - 1].items|
    ensures Undispatched(batches[..n]) == Undispatched(batches[..n - 1]) + batches[n - 1].items[batches[n - 1].next..]
  {
    assert batches[..n][..n - 1] == batches[..n - 1];
  }

  lemma JoinTickets(place: seq<Place>, head: seq<Ticket>, tail: seq<Ticket>, b: nat)
    requires NoDup(head) && NoDup(tail)
    requires forall i :: 0 <= i < |head| ==> head[i] < |place| && place[head[i]].Drained? && place[head[i]].batch < b
    requires forall i :: 0 <= i < |tail| ==> tail[i] < |place| && place[tail[i]].Drained? && place[tail[i]].batch == b
    requires forall t :: 0 <= t < |place| && place[t].Drained? && place[t].batch < b ==> t in head
    requires forall t :: 0 <= t < |place| && place[t].Drained? && place[t].batch == b ==> t in tail
    ensures var ts := head + tail;
      && NoDup(ts)
      && (forall i :: 0 <= i < |ts| ==> ts[i] < |place| && place[ts[i]].Drained? && place[ts[i]].batch < b + 1)
      && (forall t :: 0 <= t < |place| && place[t].Drained? && place[t].batch < b + 1 ==> t in ts)
  {
  }

  // What one dispatch loop still holds.
  lemma BatchTail(l: Lane, b: nat)
    requires Shape(l) && BatchesOk(l) && b < |l.batches|
    ensures var tail := l.batches[b].items[l.batches[b].next..];
      && NoDup(tail)
      && (forall i :: 0 <= i < |tail| ==>
            tail[i] < |l.place| && l.place[tail[i]].Drained? && l.place[tail[i]].batch == b)
      && (forall t :: 0 <= t < |l.place| && l.place[t].Drained? && l.place[t].batch == b ==> t in tail)
  {
    var last := l.batches[b];
    var tail := last.items[last.next..];
    assert forall i :: 0 <= i < |tail| ==> l.place[tail[i]] == Drained(b, last.next + i);
    forall t | 0 <= t < |l.place| && l.place[t].Drained? && l.place[t].batch == b
      ensures t in tail
    {
      assert tail[l.place[t].index - last.next] == t;
    }
  }

  // The tickets of the completion log.
  function Results(l: Lane): seq<Ticket> { seq(|l.done|, e requires 0 <= e < |l.done| => l.done[e].ticket) }

  lemma CallsListed(l: Lane)
    requires Shape(l) && CallsOk(l)
    ensures Lists(l.place, {BinPatching, BinResolved}, l.calls)
  {
  }

  lemma ResultsListed(l: Lane)
    requires Shape(l) && DoneOk(l)
    ensures Lists(l.place, {BinResolved}, Results(l))
  {
    forall t | 0 <= t < |l.place| && BinOf(l.place[t]) == BinResolved
      ensures t in Results(l)
    {
      assert Results(l)[EntryOf(l.place[t])] == t;
    }
  }

  lemma {:induction false} GatherSize(accepted: seq<Decision>, place: seq<Place>)
    requires |accepted| == |place|
    ensures |Gather(accepted, place, {BinPatching})| == Count(place, InPatch)
  {
    if place != [] { GatherSize(accepted[..|place| - 1], place[..|place| - 1]); }
  }

  lemma {:induction false} NoneGathered(accepted: seq<Decision>, place: seq<Place>)
    requires |accepted| == |place| && forall t :: 0 <= t < |place| ==> !Abandoned(place[t])
    ensures Gather(accepted, place, {BinAbandoned}) == multiset{}
  {
    if place != [] { NoneGathered(accepted[..|place| - 1], place[..|place| - 1]); }
  }

  // Every accepted decision is accounted for once: overwritten by a later one of
  // its key, in the pending map, in a dispatch loop, with a worker that has not
  // called Patch, in the call log, or abandoned, which takes a cancelled context.
  // The call log splits into the calls in flight and the completion log.
  lemma Conservation(c: Config, run: seq<MStep>, m: Manager, i: nat, order: seq<Key>)
    requires Reaches(c, run, m) && i < |m.lanes| && IsOrder(m.lanes[i].pending, order)
    ensures var l := m.lanes[i];
      && Conserved(l, order)
      && (!m.cancelled ==> Gather(l.accepted, l.place, {BinAbandoned}) == multiset{})
  {
    ReachedInv(c, run, m);
    var l := m.lanes[i];
    assert Inv(WithDefaults(c), l);
    if !m.cancelled { assert NoneAbandoned(l); NoneGathered(l.accepted, l.place); }
    hide Inv, Gather, Conserved;
    LaneConservation(WithDefaults(c), l, order);
  }

  ghost predicate Conserved(l: Lane, order: seq<Key>) {
    && |l.place| == |l.accepted|
    && (forall k :: k in order ==> k in l.pending)
    && (forall i :: 0 <= i < |order| ==> l.pending[order[i]] < |l.accepted|)
    && (forall j :: 0 <= j < |Undispatched(l.batches)| ==> Undispatched(l.batches)[j] < |l.accepted|)
    && (forall j :: 0 <= j < |l.calls| ==> l.calls[j] < |l.accepted|)
    && (forall j :: 0 <= j < |l.done| ==> l.done[j].ticket < |l.accepted|)
    && multiset(l.accepted)
       == Gather(l.accepted, l.place, {BinSuperseded})
        + Chosen(l.accepted, Tickets(l.pending, order))
        + Chosen(l.accepted, Undispatched(l.batches))
        + Gather(l.accepted, l.place, {BinWaiting})
        + Chosen(l.accepted, l.calls)
        + Gather(l.accepted, l.place, {BinAbandoned})
    && Chosen(l.accepted, l.calls) == Gather(l.accepted, l.place, {BinPatching}) + Chosen(l.accepted, Results(l))
    && |Gather(l.accepted, l.place, {BinPatching})| == l.inflight
    && (forall t :: 0 <= t < |l.place| && l.place[t].Superseded? ==>
          t < l.place[t].winner < |l.accepted| && KeyAt(l, l.place[t].winner) == KeyAt(l, t))
  }

  lemma LaneConservation(cfg: Config, l: Lane, order: seq<Key>)
    requires Inv(cfg, l) && IsOrder(l.pending, order)
    ensures Conserved(l, order)
  {
    hide Gather, Chosen, Undispatched, BinOf;
    QueueListed(l, order);
    CallsListed(l);
    ResultsListed(l);
    GatherSize(l.accepted, l.place);
    GatherSplit(l.accepted, l.place);
    Enumerates(l.accepted, l.place, {BinPending}, Tickets(l.pending, order));
    Enumerates(l.accepted, l.place, {BinDrained}, Undispatched(l.batches));
    Enumerates(l.accepted, l.place, {BinPatching, BinResolved}, l.calls);
    Enumerates(l.accepted, l.place, {BinResolved}, Results(l));
    assert {BinPatching, BinResolved} == {BinPatching} + {BinResolved};
    GatherUnion(l.accepted, l.place, {BinPatching}, {BinResolved});
    hide Lists;
  }

  lemma QueueListed(l: Lane, order: seq<Key>)
    requires Shape(l) && PendingOk(l) && BatchesOk(l) && IsOrder(l.pending, order)
    ensures Lists(l.place, {BinPending}, Tickets(l.pending, order))
    ensures Lists(l.place, {BinDrained}, Undispatched(l.batches))
  {
    hide Undispatched;
    TicketsOnce(l, order);
    UndispatchedTickets(l, |l.batches|);
    assert l.batches[..|l.batches|] == l.batches;
    forall t | 0 <= t < |l.place| && BinOf(l.place[t]) == BinDrained
      ensures t in Undispatched(l.batches)
    {
      assert l.place[t].batch < |l.batches|;
    }
    hide PendingOk, BatchesOk, IsOrder;
  }
}
