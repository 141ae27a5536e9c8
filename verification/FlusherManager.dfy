// The manager object: lazily created lanes, Enqueue and Stop.
module FlusherManagers {
  import opened Basics
  import opened Decisions
  import opened LaneMachine
  import opened LaneInvariants
  import opened NsLanes

  class FlusherManager {
    const cfg: Config
    const wg: WaitGroup
    var lanes: map<string, NsLane>
    var stopped: bool
    var cancelled: bool

    ghost predicate Valid()
      reads this, lanes.Values
    {
      && cfg.maxInFlight != 0
      && forall ns :: ns in lanes ==> lanes[ns].Valid() && lanes[ns].ns == ns && lanes[ns].cfg == cfg
    }

    constructor (c: Config)
      ensures Valid() && cfg == WithDefaults(c) && lanes == map[] && !stopped && !cancelled
      ensures fresh(wg) && wg.n == 0
    {
      cfg := WithDefaults(c);
      wg := new WaitGroup();
      lanes, stopped, cancelled := map[], false, false;
    }

    // The first critical section of Enqueue: refuse, or find or create the lane.
    method LaneFor(ns: string, now: int) returns (lane: NsLane?)
      requires Valid()
      modifies this`lanes
      ensures Valid() && (lane == null <==> stopped)
      ensures stopped ==> lanes == old(lanes)
      ensures !stopped ==> ns in lanes && lane == lanes[ns]
      ensures !stopped && ns in old(lanes) ==> lanes == old(lanes)
      ensures !stopped && ns !in old(lanes) ==>
        fresh(lane) && lane.g == NewLane(ns, now) && lanes == old(lanes)[ns := lanes[ns]]
    {
      hide NsLane.Valid;
      if stopped {
        return null;
      }
      if ns !in lanes {
        var created := new NsLane(ns, cfg, now);
        lanes := lanes[ns := created];
      }
      lane := lanes[ns];
    }

    // Refused once stopped; otherwise exactly the lane of the decision's
    // namespace accepts it, and a fast decision leaves that lane's queue empty.
    method Enqueue(d: Decision, now: int) returns (accepted: bool)
      requires Valid() && (d.namespace in lanes ==> lanes[d.namespace].g.clock <= now)
      modifies this`lanes, lanes.Values, wg
      ensures Valid() && (accepted <==> !stopped)
      ensures !accepted ==> lanes == old(lanes) && wg.n == old(wg.n)
      ensures forall ns :: ns in old(lanes) && (!accepted || ns != d.namespace) ==>
        ns in lanes && lanes[ns] == old(lanes[ns]) && lanes[ns].g == old(lanes[ns].g)
      ensures accepted ==>
        && lanes.Keys == old(lanes).Keys + {d.namespace}
        && lanes[d.namespace].g.accepted
           == (if d.namespace in old(lanes) then old(lanes[d.namespace].g.accepted) else []) + [d]
        && (d.desiredMinScale == 1 ==> lanes[d.namespace].pending == map[])
        && (d.desiredMinScale != 1 ==> d.KeyOf() in lanes[d.namespace].pending && wg.n == old(wg.n))
    {
      hide NsLane.Valid;
      var lane := LaneFor(d.namespace, now);
      if lane == null {
        return false;
      }
      lane.Submit(d, now, wg);
      accepted := true;
    }

    // Stops every recorded timer and cancels the context; queues are dropped, not drained.
    method Stop()
      requires Valid()
      modifies this`stopped, this`cancelled, lanes.Values
      ensures Valid() && stopped && lanes == old(lanes)
      ensures old(stopped) ==> cancelled == old(cancelled)
      ensures !old(stopped) ==> cancelled && forall ns :: ns in lanes ==>
        lanes[ns].timer == None && lanes[ns].pending == old(lanes[ns].pending)
    {
      hide NsLane.Valid, Apply;
      if stopped {
        return;
      }
      stopped := true;
      var rest := lanes.Keys;
      while rest != {}
        invariant rest <= lanes.Keys && Valid() && stopped && lanes == old(lanes)
        invariant forall ns :: ns in lanes ==> lanes[ns].pending == old(lanes[ns].pending)
        invariant forall ns :: ns in lanes && ns !in rest ==> lanes[ns].timer == None
        decreases rest
      {
        var ns :| ns in rest;
        lanes[ns].StopTimer();
        rest := rest - {ns};
      }
      cancelled := true;
    }
  }
}
