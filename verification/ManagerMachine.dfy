// The flusher manager: lanes created on demand, the shared wait group and Stop.
// A lane is known by its position in creation order, as the code knows it by pointer.
module ManagerMachine {
  import opened Decisions
  import opened LaneMachine
  import opened LaneInvariants

  // An Enqueue call that passed the stopped check and has not reached its lane.
  datatype Call = Call(lane: nat, d: Decision)

  datatype Manager = Manager(
    lanes: seq<Lane>,
    stopped: bool,
    toStop: set<nat>,
    cancelled: bool,
    returned: bool,
    wg: int,
    admitted: multiset<Call>)

  const NEW_MANAGER := Manager([], false, {}, false, false, 0, multiset{})

  datatype MStep =
    | Admit(d: Decision, now: int)
    | InLane(lane: nat, step: Step)
    | StopBegin
    | StopLane(lane: nat)
    | CancelContext
    | StopReturn
    | StopAgain

  // The lane map lookup.
  function LaneOf(lanes: seq<Lane>, ns: string): (i: nat)
    ensures i <= |lanes|
    ensures i < |lanes| ==> lanes[i].ns == ns
    ensures forall j :: 0 <= j < i ==> lanes[j].ns != ns
  {
    if lanes == [] || lanes[0].ns == ns then 0 else 1 + LaneOf(lanes[1..], ns)
  }

  function AllLanes(n: nat): (r: set<nat>)
    ensures forall i :: i in r <==> 0 <= i < n
  {
    if n == 0 then {} else AllLanes(n - 1) + {n - 1}
  }

  ghost predicate MEnabled(cfg: Config, m: Manager, a: MStep) {
    match a
    case Admit(d, now) => !m.stopped
    case InLane(i, step) =>
      && i < |m.lanes| && Enabled(cfg, m.lanes[i], step)
      && (step.Enqueue? ==> Call(i, step.d) in m.admitted)
      && (step.GiveUp? ==> m.cancelled)
      && !step.StopTimer?
    case StopBegin => !m.stopped
    case StopLane(i) => i in m.toStop && i < |m.lanes|
    case CancelContext => m.stopped && m.toStop == {} && !m.cancelled
    case StopReturn => m.cancelled && m.wg == 0
    case StopAgain => m.stopped
  }

  ghost function MApply(cfg: Config, m: Manager, a: MStep): Manager
    requires MEnabled(cfg, m, a)
  {
    match a
    case Admit(d, now) =>
      var i := LaneOf(m.lanes, d.namespace);
      m.(lanes := if i < |m.lanes| then m.lanes else m.lanes + [NewLane(d.namespace, now)],
         admitted := m.admitted + multiset{Call(i, d)})
    case InLane(i, step) =>
      m.(lanes := m.lanes[i := Apply(cfg, m.lanes[i], step)],
         admitted := if step.Enqueue? then m.admitted - multiset{Call(i, step.d)} else m.admitted,
         wg := m.wg + LiveDelta(step))
    case StopBegin => m.(stopped := true, toStop := AllLanes(|m.lanes|))
    case StopLane(i) =>
      m.(lanes := m.lanes[i := Apply(cfg, m.lanes[i], StopTimer)], toStop := m.toStop - {i})
    case CancelContext => m.(cancelled := true)
    case StopReturn => m.(returned := true)
    case StopAgain => m                          // a further Stop call returns at once
  }

  // A schedule: every step is enabled when it is taken.
  ghost predicate IsRun(cfg: Config, m: Manager, run: seq<MStep>)
    decreases |run|
  {
    run == [] || (MEnabled(cfg, m, run[0]) && IsRun(cfg, MApply(cfg, m, run[0]), run[1..]))
  }

  ghost function After(cfg: Config, m: Manager, run: seq<MStep>): Manager
    requires IsRun(cfg, m, run)
    decreases |run|
  {
    if run == [] then m else After(cfg, MApply(cfg, m, run[0]), run[1..])
  }

  lemma RunCons(cfg: Config, m: Manager, a: MStep, rest: seq<MStep>)
    requires MEnabled(cfg, m, a) && IsRun(cfg, MApply(cfg, m, a), rest)
    ensures IsRun(cfg, m, [a] + rest)
    ensures After(cfg, m, [a] + rest) == After(cfg, MApply(cfg, m, a), rest)
  {
    hide MEnabled, MApply;
    assert ([a] + rest)[1..] == rest;
  }

  lemma {:induction false} RunAppend(cfg: Config, m: Manager, a: seq<MStep>, b: seq<MStep>)
    requires IsRun(cfg, m, a) && IsRun(cfg, After(cfg, m, a), b)
    ensures IsRun(cfg, m, a + b) && After(cfg, m, a + b) == After(cfg, After(cfg, m, a), b)
    decreases |a|
  {
    hide MEnabled, MApply;
    if a == [] {
      assert a + b == b;
    } else {
      RunAppend(cfg, MApply(cfg, m, a[0]), a[1..], b);
      assert (a + b)[1..] == a[1..] + b;
    }
  }

  // ---- the manager invariant ----

  function LiveWorkers(lanes: seq<Lane>): int {
    if lanes == [] then 0 else LiveWorkers(lanes[..|lanes| - 1]) + Count(lanes[|lanes| - 1].place, Live)
  }

  ghost predicate LanesOk(cfg: Config, lanes: seq<Lane>) {
    forall i :: 0 <= i < |lanes| ==> Inv(cfg, lanes[i])
  }

  // One lane per namespace.
  ghost predicate Distinct(lanes: seq<Lane>) {
    forall i, j :: 0 <= i < j < |lanes| ==> lanes[i].ns != lanes[j].ns
  }

  ghost predicate Books(m: Manager) {
    && Distinct(m.lanes)
    && m.wg == LiveWorkers(m.lanes)
    && (forall i :: i in m.toStop ==> i < |m.lanes| && m.stopped)
    && (m.cancelled ==> m.stopped)
    && (m.returned ==> m.cancelled)
    && (forall i :: 0 <= i < |m.lanes| && !m.stopped ==> !m.lanes[i].timerStopRan)
    && (forall i :: 0 <= i < |m.lanes| && !m.cancelled ==> NoneAbandoned(m.lanes[i]))
    && (forall c :: c in m.admitted ==> c.lane < |m.lanes| && m.lanes[c.lane].ns == c.d.namespace)
  }

  ghost predicate MInv(cfg: Config, m: Manager) {
    LanesOk(cfg, m.lanes) && Books(m)
  }

  lemma {:induction false} LiveWorkersPut(lanes: seq<Lane>, i: nat, l: Lane)
    requires i < |lanes|
    ensures LiveWorkers(lanes[i := l]) == LiveWorkers(lanes) - Count(lanes[i].place, Live) + Count(l.place, Live)
  {
    var n := |lanes| - 1;
    if i < n {
      LiveWorkersPut(lanes[..n], i, l);
      assert lanes[i := l][..n] == lanes[..n][i := l];
    } else {
      assert lanes[i := l][..n] == lanes[..n];
    }
  }

  lemma LanesPut(cfg: Config, lanes: seq<Lane>, i: nat, l: Lane)
    requires LanesOk(cfg, lanes) && Inv(cfg, l) && i < |lanes|
    ensures LanesOk(cfg, lanes[i := l])
  {
  }

  lemma PutBooks(m: Manager, w: Manager, i: nat, l: Lane)
    requires Books(m) && i < |m.lanes| && l.ns == m.lanes[i].ns
    requires m.stopped || l.timerStopRan == m.lanes[i].timerStopRan
    requires m.cancelled || NoneAbandoned(l)
    requires w.toStop <= m.toStop && w.admitted <= m.admitted
    requires w == m.(lanes := m.lanes[i := l], toStop := w.toStop, admitted := w.admitted,
                     wg := m.wg - Count(m.lanes[i].place, Live) + Count(l.place, Live))
    ensures Books(w)
  {
    LiveWorkersPut(m.lanes, i, l);
    assert forall c :: c in w.admitted ==> c in m.admitted;
  }

  lemma AdmitBooks(m: Manager, w: Manager, d: Decision, l: Lane)
    requires Books(m) && !m.stopped && LaneOf(m.lanes, d.namespace) == |m.lanes|
    requires l.ns == d.namespace && !l.timerStopRan && l.place == []
    requires w == m.(admitted := m.admitted + multiset{Call(|m.lanes|, d)}, lanes := m.lanes + [l])
    ensures Books(w)
  {
    assert LiveWorkers(w.lanes) == LiveWorkers(m.lanes) by {
      assert w.lanes[..|m.lanes|] == m.lanes;
    }
    hide LiveWorkers, Count;
    assert Distinct(w.lanes);
  }

  lemma LaneBooks(m: Manager, i: nat)
    requires Books(m) && i < |m.lanes|
    ensures m.cancelled || NoneAbandoned(m.lanes[i])
    ensures m.stopped || !m.lanes[i].timerStopRan
  {
    hide NoneAbandoned, LiveWorkers, Distinct;
  }

  lemma InLaneBooks(cfg: Config, m: Manager, i: nat, step: Step)
    requires Books(m) && MEnabled(cfg, m, InLane(i, step)) && Inv(cfg, m.lanes[i])
    ensures Books(MApply(cfg, m, InLane(i, step)))
  {
    hide Inv, Apply, Enabled, NoneAbandoned, Books;
    var l := Apply(cfg, m.lanes[i], step);
    StepInv(cfg, m.lanes[i], step);
    LaneBooks(m, i);
    if !m.cancelled { OnlyGiveUpAbandons(cfg, m.lanes[i], step); }
    StepKeepsIdentity(cfg, m.lanes[i], step);
    PutBooks(m, MApply(cfg, m, InLane(i, step)), i, l);
  }

  lemma InLaneInv(cfg: Config, m: Manager, i: nat, step: Step)
    requires MInv(cfg, m) && MEnabled(cfg, m, InLane(i, step))
    ensures MInv(cfg, MApply(cfg, m, InLane(i, step)))
  {
    hide Inv, Apply, Enabled, Books;
    InLaneBooks(cfg, m, i, step);
    StepInv(cfg, m.lanes[i], step);
    LanesPut(cfg, m.lanes, i, Apply(cfg, m.lanes[i], step));
  }

  lemma LanesAdd(cfg: Config, lanes: seq<Lane>, l: Lane)
    requires LanesOk(cfg, lanes) && Inv(cfg, l)
    ensures LanesOk(cfg, lanes + [l])
  {
    hide Inv;
  }

  // An Enqueue for a lane that exists already.
  lemma AdmitOldBooks(m: Manager, w: Manager, d: Decision, i: nat)
    requires Books(m) && i < |m.lanes| && m.lanes[i].ns == d.namespace
    requires w == m.(admitted := m.admitted + multiset{Call(i, d)})
    ensures Books(w)
  {
    hide LiveWorkers, Distinct, NoneAbandoned;
  }

  lemma AdmitInv(cfg: Config, m: Manager, d: Decision, now: int)
    requires cfg.maxInFlight != 0 && MInv(cfg, m) && MEnabled(cfg, m, Admit(d, now))
    ensures MInv(cfg, MApply(cfg, m, Admit(d, now)))
  {
    hide Inv, LanesOk, Books;
    var i := LaneOf(m.lanes, d.namespace);
    if i == |m.lanes| {
      NewLaneInv(cfg, d.namespace, now);
      LanesAdd(cfg, m.lanes, NewLane(d.namespace, now));
      AdmitBooks(m, MApply(cfg, m, Admit(d, now)), d, NewLane(d.namespace, now));
    } else {
      AdmitOldBooks(m, MApply(cfg, m, Admit(d, now)), d, i);
    }
  }

  lemma StopLaneInv(cfg: Config, m: Manager, i: nat)
    requires MInv(cfg, m) && MEnabled(cfg, m, StopLane(i))
    ensures MInv(cfg, MApply(cfg, m, StopLane(i)))
  {
    hide Inv, Apply;
    StepInv(cfg, m.lanes[i], StopTimer);
    if !m.cancelled { OnlyGiveUpAbandons(cfg, m.lanes[i], StopTimer); }
    StepKeepsIdentity(cfg, m.lanes[i], StopTimer);
    PutBooks(m, MApply(cfg, m, StopLane(i)), i, Apply(cfg, m.lanes[i], StopTimer));
    LanesPut(cfg, m.lanes, i, Apply(cfg, m.lanes[i], StopTimer));
  }

  lemma MStepInv(cfg: Config, m: Manager, a: MStep)
    requires cfg.maxInFlight != 0 && MInv(cfg, m) && MEnabled(cfg, m, a)
    ensures MInv(cfg, MApply(cfg, m, a))
  {
    match a
    case Admit(d, now) => AdmitInv(cfg, m, d, now);
    case InLane(i, step) => InLaneInv(cfg, m, i, step);
    case StopLane(i) => StopLaneInv(cfg, m, i);
    case _ =>
    hide Inv, Apply, Enabled, LiveWorkers, NoneAbandoned;
  }

  // Every state of every schedule satisfies the invariant.
  lemma {:induction false} RunInv(cfg: Config, m: Manager, run: seq<MStep>)
    requires cfg.maxInFlight != 0 && MInv(cfg, m) && IsRun(cfg, m, run)
    ensures MInv(cfg, After(cfg, m, run))
    decreases |run|
  {
    if run != [] {
      MStepInv(cfg, m, run[0]);
      RunInv(cfg, MApply(cfg, m, run[0]), run[1..]);
    }
  }
}
