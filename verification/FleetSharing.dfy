// Exactly when adoptions that refer to one and the same traffic object give it back.
module FleetSharing {
  import opened Basics
  import opened Traffic
  import opened TrafficTheorems
  import opened Protocol
  import opened ProtocolInvariants
  import opened ProtocolTheorems
  import opened ProtocolProgress
  import opened Fleet
  import opened FleetFrames
  import opened FleetTheorems

  // ---- one object of either kind ----

  function ObjectsOf(kind: TrafficKind, c: Cluster): Objects { if kind.VirtualService? then c.vs else c.dr }

  function SnapsOf(kind: TrafficKind, s: Option<Snapshot>): seq<ObjectSnapshot> {
    if kind.VirtualService? then SnapVS(s) else SnapDR(s)
  }

  function Other(kind: TrafficKind): TrafficKind { if kind.VirtualService? then DestinationRule else VirtualService }

  function Put(kind: TrafficKind, c: Cluster, name: string, obj: Object): Cluster {
    if kind.VirtualService? then c.(vs := c.vs[name := obj]) else c.(dr := c.dr[name := obj])
  }

  // An adoption spec that refers to this object and no other.
  function Refers(kind: TrafficKind, name: string, declared: Option<int32>, s: Spec): Spec {
    var vs, dr := if kind.VirtualService? then [name] else [], if kind.VirtualService? then [] else [name];
    s.(traffic := Some(TrafficSpec(true, "", vs, dr, declared)))
  }

  function OneClaim(kind: TrafficKind, name: string): Claim {
    if kind.VirtualService? then Claim({name}, {}) else Claim({}, {name})
  }

  // A pass in which no call fails, nothing is ready and every cascade is through.
  const CALM := Pass({}, false, true, true, "", [], EMPTY_STATUS.report)

  // Nothing but this object is recorded, as x.
  ghost predicate Records(kind: TrafficKind, s: Option<Snapshot>, name: string, x: Object) {
    && SnapsOf(kind, s) == [ObjectSnapshot(name, SpecOf(x))] && SnapsOf(Other(kind), s) == []
    && SnapReplicas(s).None?
  }

  ghost predicate RecordsNothing(s: Option<Snapshot>) { SnapVS(s) == [] && SnapDR(s) == [] && SnapReplicas(s).None? }

  // An adoption is in place and running.
  ghost predicate Running(c: Cluster, s: Spec) { c.cr.Some? && !c.cr.value.deleting && c.cr.value.spec == s }

  // ---- one pass ----

  lemma CalmTraffic(kind: TrafficKind, f: Flow, s: Spec, name: string, declared: Option<int32>, x: Object)
    requires f.go && name != "" && name in ObjectsOf(kind, f.c)
    requires Records(kind, f.snapshot, name, x) || (RecordsNothing(f.snapshot) && x == ObjectsOf(kind, f.c)[name])
    requires var sel := SelectorFor(f.c, Refers(kind, name, declared, s).traffic.value);
      Rewrite(kind, sel, ObjectsOf(kind, f.c)[name]).Ok?
    ensures var sel := SelectorFor(f.c, Refers(kind, name, declared, s).traffic.value);
      var g := TrafficStage(f, CALM, Refers(kind, name, declared, s));
      && g.go && g.c == Put(kind, f.c, name, Rewrite(kind, sel, ObjectsOf(kind, f.c)[name]).value)
      && Records(kind, g.snapshot, name, x)
  {
    var t := Refers(kind, name, declared, s).traffic.value;
    var sel := SelectorFor(f.c, t);
    hide Rewrite, SelectorFor, SpecOf;
    OneRef(Adapt(ObjectsOf(kind, f.c), SnapsOf(kind, f.snapshot), true), kind, name, sel, x);
    NoRefs(Adapt(ObjectsOf(Other(kind), f.c), SnapsOf(Other(kind), f.snapshot), true), Other(kind), sel);
    hide AdaptAll;
  }

  lemma OneRef(a: Adapt, kind: TrafficKind, name: string, sel: Selector, x: Object)
    requires a.ok && name != "" && name in a.objs && Rewrite(kind, sel, a.objs[name]).Ok?
    requires a.snaps == [ObjectSnapshot(name, SpecOf(x))] || (a.snaps == [] && x == a.objs[name])
    ensures AdaptAll(a, kind, [name], 1, {}, sel)
         == Adapt(a.objs[name := Rewrite(kind, sel, a.objs[name]).value], [ObjectSnapshot(name, SpecOf(x))], true)
  {
    hide Rewrite, SpecOf;
    assert AdaptAll(a, kind, [name], 0, {}, sel) == a;
    if a.snaps != [] { assert a.snaps[0].name == name; }
    assert SnapshotOnce(a.snaps, name, a.objs[name]) == [ObjectSnapshot(name, SpecOf(x))];
    assert a.objs[name := a.objs[name]] == a.objs;
  }

  lemma NoRefs(a: Adapt, kind: TrafficKind, sel: Selector)
    ensures AdaptAll(a, kind, [], 0, {}, sel) == a
  {
  }

  // What a running adoption needs for a calm pass, and what that pass does.
  ghost predicate CanPass(kind: TrafficKind, c: Cluster, spec: Spec, name: string, x: Object) {
    && Running(c, spec) && Translates(c, spec, None) && Classify(c.svc) == SwapPass && spec.traffic.Some?
    && name != "" && name in ObjectsOf(kind, c)
    && Rewrite(kind, SelectorFor(c, spec.traffic.value), ObjectsOf(kind, c)[name]).Ok?
    && (|| Records(kind, c.cr.value.status.snapshot, name, x)
        || (RecordsNothing(c.cr.value.status.snapshot) && x == ObjectsOf(kind, c)[name]))
  }

  function Rewritten(kind: TrafficKind, c: Cluster, spec: Spec, name: string): Cluster
    requires spec.traffic.Some? && name in ObjectsOf(kind, c)
    requires Rewrite(kind, SelectorFor(c, spec.traffic.value), ObjectsOf(kind, c)[name]).Ok?
  {
    Put(kind, c, name, Rewrite(kind, SelectorFor(c, spec.traffic.value), ObjectsOf(kind, c)[name]).value)
  }

  lemma CalmAdopt(kind: TrafficKind, c: Cluster, a: Adoption, s: Spec, name: string, declared: Option<int32>, x: Object)
    requires a.spec == Refers(kind, name, declared, s) && c.cr == Some(a) && CanPass(kind, c, a.spec, name, x)
    ensures var g := AdoptFlow(c, a, CALM);
      && g.c == Rewritten(kind, c, a.spec, name).(ksvc := g.c.ksvc) && g.c.ksvc.Some?
      && Records(kind, g.snapshot, name, x)
  {
    var f0 := Flow(c, a.status.snapshot, true, []);
    assert SwapStage(f0, CALM) == f0;
    hide Rewrite, SelectorFor, Translated, Records;
    CalmTraffic(kind, f0, s, name, declared, x);
    CalmFlow(c, a, TrafficStage(f0, CALM, a.spec));
    hide AdoptFlow, TrafficStage, SwapStage;
  }

  // A running adoption makes one calm pass.
  lemma CalmPass(kind: TrafficKind, c: Cluster, s: Spec, name: string, declared: Option<int32>, x: Object)
    requires CanPass(kind, c, Refers(kind, name, declared, s), name, x)
    ensures var spec := Refers(kind, name, declared, s);
      var d := Next(c, ReconcileStep(CALM));
      && d == Rewritten(kind, c, spec, name).(cr := d.cr, ksvc := d.ksvc) && d.ksvc.Some?
      && Running(d, spec) && d.cr.value.finalizers == BOTH && Records(kind, d.cr.value.status.snapshot, name, x)
  {
    var spec := Refers(kind, name, declared, s);
    var a := c.cr.value.(finalizers := BOTH);
    var e := c.(cr := Some(a));
    SameTranslation(c, e, spec);
    assert SelectorFor(e, spec.traffic.value) == SelectorFor(c, spec.traffic.value);
    hide Rewrite, SelectorFor, Translated, Records, RecordsNothing;
    CalmAdopt(kind, e, a, s, name, declared, x);
    var g := AdoptFlow(e, a, CALM);
    CalmStatus(kind, a.status, g.snapshot, name, x);
    NextCalm(c, a, g);
    hide AdoptFlow, Next;
  }

  lemma NextCalm(c: Cluster, a: Adoption, g: Flow)
    requires c.cr.Some? && !c.cr.value.deleting && a == c.cr.value.(finalizers := BOTH)
    requires g == AdoptFlow(c.(cr := Some(a)), a, CALM) && g.c.cr == Some(a)
    ensures var d := Next(c, ReconcileStep(CALM));
      && d == g.c.(cr := d.cr) && d.cr.Some? && d.cr.value == a.(status := d.cr.value.status)
      && d.cr.value.status.snapshot
         == if StatusEqual(a.status, Status(g.snapshot, CALM.report)) then a.status.snapshot else g.snapshot
  {
    hide AdoptFlow, StatusEqual;
  }

  // After the traffic stage a calm pass applies the KSvc and finds it not ready.
  lemma CalmFlow(c: Cluster, a: Adoption, f2: Flow)
    requires Translates(c, a.spec, None) && f2.go
    requires var f0 := Flow(c, a.status.snapshot, true, []);
      SwapStage(f0, CALM) == f0 && TrafficStage(f0, CALM, a.spec) == f2
    ensures var g := AdoptFlow(c, a, CALM);
      g.c == f2.c.(ksvc := g.c.ksvc) && g.c.ksvc.Some? && g.snapshot == f2.snapshot
  {
    hide SwapStage, TrafficStage, Translated, QuiesceStage;
  }

  // Whether or not the status write is suppressed, the record is stored.
  lemma CalmStatus(kind: TrafficKind, before: AdoptionStatus, snap: Option<Snapshot>, name: string, x: Object)
    requires Records(kind, snap, name, x)
    ensures StatusEqual(before, Status(snap, CALM.report)) ==> Records(kind, before.snapshot, name, x)
  {
    hide SpecOf;
  }

  // ---- coming and going ----

  ghost predicate Allowed(steps: seq<Step>, k: Claim) { forall i :: 0 <= i < |steps| ==> StepWithin(steps[i], k) }

  // Free to be adopted: no adoption, no KSvc, and no Service or an ordinary one.
  ghost predicate Free(c: Cluster) { c.cr.None? && c.ksvc.None? && (c.svc.None? || Plain(c.svc.value)) }

  lemma OneStep(c: Cluster, s: Step)
    ensures Run(World(c, []), [s]).c == Next(c, s)
  {
    assert [s][1..] == [];
  }

  lemma {:induction false} RunAppend(w: World, a: seq<Step>, b: seq<Step>)
    ensures Run(w, a + b) == Run(Run(w, a), b)
    decreases |a|
  {
    hide Apply;
    if a == [] {
      assert a + b == b;
    } else {
      RunAppend(Apply(w, a[0]), a[1..], b);
      assert (a + b)[1..] == a[1..] + b;
    }
  }

  // One more step at the end.
  lemma RunThen(c: Cluster, a: seq<Step>, s: Step)
    ensures Run(World(c, []), a + [s]).c == Next(Run(World(c, []), a).c, s)
  {
    RunAppend(World(c, []), a, [s]);
    RunReadsCluster(Run(World(c, []), a), [s]);
    OneStep(Run(World(c, []), a).c, s);
  }

  // The adoption is created, and an ordinary Service is taken over first.
  lemma Begins(c: Cluster, s: Spec, k: Claim) returns (steps: seq<Step>)
    requires Free(c) && Translates(c, s, None) && SpecWithin(s, k)
    ensures Allowed(steps, k)
    ensures var d := Run(World(c, []), steps).c;
      && d == c.(svc := None, cr := d.cr, nextUid := d.nextUid) && Running(d, s)
      && RecordsNothing(d.cr.value.status.snapshot) && Translates(d, s, None)
  {
    hide SpecWithin, Translated;
    steps := [UserCreates(s)];
    OneStep(c, UserCreates(s));
    var d := Next(c, UserCreates(s));
    assert d == CreateAdoption(c, false, s);
    SameTranslation(c, d, s);
    if c.svc.Some? {
      RunThen(c, steps, ReconcileStep(CALM));
      TakeoverPass(World(d, []), CALM);
      hide AdoptPass;
      steps := steps + [ReconcileStep(CALM)];
      SameTranslation(c, Next(d, ReconcileStep(CALM)), s);
    }
    hide Run;
  }

  lemma SameTranslation(c: Cluster, d: Cluster, s: Spec)
    requires Translates(c, s, None) && d.dep == c.dep && d.name == c.name && d.namespace == c.namespace
    ensures Translates(d, s, None)
  {
  }

  // A Service that Knative derives with this port.
  function DerivedWith(port: int32): ServiceSpec { ServiceSpec(ClusterIP, "", [], [port], "") }

  // Once the KSvc is there, Knative may derive a Service, and a further pass works
  // with that Service's port.
  lemma DerivedPort(c: Cluster, t: TrafficSpec, port: int32)
    requires c.ksvc.Some? && c.svc.None? && port > 0
    ensures var d := Next(c, KnativeDerives(DerivedWith(port)));
      && d == c.(svc := d.svc) && Classify(d.svc) == SwapPass
      && SelectorFor(d, t) == PortSelector(c, t.servicePort, Some(port))
  {
    hide AdoptPass, ReleasePass;
  }

  lemma NoServicePort(c: Cluster, t: TrafficSpec)
    requires c.svc.None?
    ensures SelectorFor(c, t) == PortSelector(c, t.servicePort, t.servicePort)
  {
  }

  // The object after a workload has come in.
  ghost predicate CameIn(kind: TrafficKind, c: Cluster, d: Cluster, name: string, x: Object, y: Object) {
    && ObjectsOf(kind, d) == ObjectsOf(kind, c)[name := y] && ObjectsOf(Other(kind), d) == ObjectsOf(Other(kind), c)
    && d.cr.Some? && !d.cr.value.deleting && d.cr.value.finalizers == BOTH
    && Records(kind, d.cr.value.status.snapshot, name, x)
  }

  // A workload comes in with its declared port.
  lemma ComesIn(kind: TrafficKind, c: Cluster, s: Spec, name: string, declared: Option<int32>)
    returns (steps: seq<Step>)
    requires Free(c) && Translates(c, s, None) && name != "" && name in ObjectsOf(kind, c)
    requires Rewrite(kind, PortSelector(c, declared, declared), ObjectsOf(kind, c)[name]).Ok?
    ensures Allowed(steps, OneClaim(kind, name))
    ensures var x := ObjectsOf(kind, c)[name];
      var d := Run(World(c, []), steps).c;
      && CameIn(kind, c, d, name, x, Rewrite(kind, PortSelector(c, declared, declared), x).value)
      && d.svc.None? && d.ksvc.Some? && Running(d, Refers(kind, name, declared, s))
      && d.name == c.name && d.namespace == c.namespace && d.dep == c.dep
  {
    var spec := Refers(kind, name, declared, s);
    RefersTranslates(kind, c, s, name, declared);
    hide Rewrite, Translated, Records;
    steps := Begins(c, spec, OneClaim(kind, name));
    var d := Run(World(c, []), steps).c;
    NoServicePort(d, spec.traffic.value);
    assert PortSelector(d, declared, declared) == PortSelector(c, declared, declared);
    hide SelectorFor, PortSelector;
    CalmPass(kind, d, s, name, declared, ObjectsOf(kind, c)[name]);
    RunThen(c, steps, ReconcileStep(CALM));
    hide Run, Next;
    steps := steps + [ReconcileStep(CALM)];
  }

  lemma RefersTranslates(kind: TrafficKind, c: Cluster, s: Spec, name: string, declared: Option<int32>)
    requires Translates(c, s, None)
    ensures Translates(c, Refers(kind, name, declared, s), None)
    ensures SpecWithin(Refers(kind, name, declared, s), OneClaim(kind, name))
  {
  }

  // Knative derives a Service for a running adoption, which makes one more pass.
  lemma WorksOn(kind: TrafficKind, d: Cluster, s: Spec, name: string, declared: Option<int32>, port: int32, x: Object)
    requires Running(d, Refers(kind, name, declared, s)) && Translates(d, Refers(kind, name, declared, s), None)
    requires d.ksvc.Some? && d.svc.None? && port > 0 && name != "" && name in ObjectsOf(kind, d)
    requires Records(kind, d.cr.value.status.snapshot, name, x)
    requires Rewrite(kind, PortSelector(d, declared, Some(port)), ObjectsOf(kind, d)[name]).Ok?
    ensures var y := Rewrite(kind, PortSelector(d, declared, Some(port)), ObjectsOf(kind, d)[name]).value;
      CameIn(kind, d, Next(Next(d, KnativeDerives(DerivedWith(port))), ReconcileStep(CALM)), name, x, y)
  {
    var spec := Refers(kind, name, declared, s);
    DerivedPort(d, spec.traffic.value, port);
    var e := Next(d, KnativeDerives(DerivedWith(port)));
    SameTranslation(d, e, spec);
    hide Rewrite, Translated, Records, SelectorFor, PortSelector, Next;
    CalmPass(kind, e, s, name, declared, x);
  }

  // A workload comes in and then works with a derived Service's port.
  lemma ComesInFurther(kind: TrafficKind, c: Cluster, s: Spec, name: string, declared: Option<int32>, port: int32)
    returns (steps: seq<Step>)
    requires Free(c) && Translates(c, s, None) && name != "" && name in ObjectsOf(kind, c) && port > 0
    requires var x := ObjectsOf(kind, c)[name];
      Rewrite(kind, PortSelector(c, declared, declared), x) == Ok(x)
    requires Rewrite(kind, PortSelector(c, declared, Some(port)), ObjectsOf(kind, c)[name]).Ok?
    ensures Allowed(steps, OneClaim(kind, name))
    ensures var x := ObjectsOf(kind, c)[name];
      CameIn(kind, c, Run(World(c, []), steps).c, name, x,
             Rewrite(kind, PortSelector(c, declared, Some(port)), x).value)
  {
    var x := ObjectsOf(kind, c)[name];
    steps := ComesIn(kind, c, s, name, declared);
    hide Rewrite, Translated, Records, Run, Next, Free;
    var d := Run(World(c, []), steps).c;
    assert ObjectsOf(kind, c)[name := x] == ObjectsOf(kind, c);
    RefersTranslates(kind, c, s, name, declared);
    SameTranslation(c, d, Refers(kind, name, declared, s));
    assert PortSelector(d, declared, Some(port)) == PortSelector(c, declared, Some(port));
    hide PortSelector;
    WorksOn(kind, d, s, name, declared, port, x);
    var derives := KnativeDerives(DerivedWith(port));
    RunThen(c, steps, derives);
    RunThen(c, steps + [derives], ReconcileStep(CALM));
    steps := steps + [derives] + [ReconcileStep(CALM)];
  }

  // ---- going ----

  lemma OneUndo(u: Undo, kind: TrafficKind, name: string, x: Object)
    requires u.ok && name != "" && name in u.objs && Decodes(SpecOf(x))
    ensures UndoAll(u, kind, [ObjectSnapshot(name, SpecOf(x))], 1, {})
         == Undo(u.objs[name := WithSpec(u.objs[name], SpecOf(x))], true)
  {
    var snaps := [ObjectSnapshot(name, SpecOf(x))];
    WithSpecOf(u.objs[name], SpecOf(x));
    hide SpecOf, WithSpec, Decodes;
    assert UndoAll(u, kind, snaps, 0, {}) == u;
    assert u.objs[name := u.objs[name]] == u.objs;
  }

  lemma CalmUndo(kind: TrafficKind, f: Flow, name: string, x: Object)
    requires f.go && name != "" && name in ObjectsOf(kind, f.c) && Decodes(SpecOf(x))
    requires Records(kind, f.snapshot, name, x)
    ensures UndoTrafficStage(f, CALM)
         == f.(c := Put(kind, f.c, name, WithSpec(ObjectsOf(kind, f.c)[name], SpecOf(x))))
  {
    hide SpecOf, WithSpec, Decodes;
    OneUndo(Undo(ObjectsOf(kind, f.c), true), kind, name, x);
    var rest := Undo(ObjectsOf(Other(kind), f.c), true);
    assert UndoAll(rest, Other(kind), [], 0, {}) == rest;
    hide UndoAll;
  }

  lemma CalmRelease(kind: TrafficKind, c: Cluster, a: Adoption, name: string, x: Object)
    requires c.cr == Some(a) && a.deleting && a.finalizers == BOTH && Records(kind, a.status.snapshot, name, x)
    requires name != "" && name in ObjectsOf(kind, c) && Decodes(SpecOf(x))
    ensures var d := ReleaseFlow(c, a, CALM).c;
      && d.cr.None? && ObjectsOf(kind, d) == ObjectsOf(kind, c)[name := WithSpec(ObjectsOf(kind, c)[name], SpecOf(x))]
      && ObjectsOf(Other(kind), d) == ObjectsOf(Other(kind), c)
  {
    hide SpecOf, WithSpec, Decodes, UndoTrafficStage;
    var f0 := Flow(c, a.status.snapshot, true, []);
    var f1 := CascadeStage(f0, CALM);
    assert f1.go && f1.c == c.(ksvc := None, svc := f1.c.svc) && f1.snapshot == f0.snapshot;
    CalmUndo(kind, f1, name, x);
    assert BOTH - {RestoreService} == {RestoreSource};
    hide CascadeStage;
  }

  // A workload goes: its record is written over whatever is there by then.
  lemma Goes(kind: TrafficKind, c: Cluster, name: string, x: Object) returns (steps: seq<Step>)
    requires c.cr.Some? && c.cr.value.finalizers == BOTH && Records(kind, c.cr.value.status.snapshot, name, x)
    requires name != "" && name in ObjectsOf(kind, c) && Decodes(SpecOf(x))
    ensures Allowed(steps, OneClaim(kind, name))
    ensures var d := Run(World(c, []), steps).c;
      && d.cr.None? && ObjectsOf(kind, d) == ObjectsOf(kind, c)[name := WithSpec(ObjectsOf(kind, c)[name], SpecOf(x))]
      && ObjectsOf(Other(kind), d) == ObjectsOf(Other(kind), c)
  {
    hide SpecOf, WithSpec, Decodes, Records;
    var e := Next(c, UserDeletes);
    assert e == c.(cr := Some(c.cr.value.(deleting := true)));
    OneStep(c, UserDeletes);
    RunThen(c, [UserDeletes], ReconcileStep(CALM));
    CalmRelease(kind, e, e.cr.value, name, x);
    hide ReleaseFlow, Run;
    steps := [UserDeletes] + [ReconcileStep(CALM)];
  }

  // ---- the fleet ----

  function TurnsOf(i: nat, steps: seq<Step>): seq<Turn> {
    if steps == [] then [] else [Turn(i, steps[0])] + TurnsOf(i, steps[1..])
  }

  lemma {:induction false} FleetAppend(f: Fleet, a: seq<Turn>, b: seq<Turn>)
    ensures FleetRun(f, a + b) == FleetRun(FleetRun(f, a), b)
    decreases |a|
  {
    hide FleetStep;
    if a == [] {
      assert a + b == b;
    } else {
      FleetAppend(FleetStep(f, a[0]), a[1..], b);
      assert (a + b)[1..] == a[1..] + b;
    }
  }

  // One member runs while the others wait: they only see the objects change.
  ghost predicate Alone(f: Fleet, g: Fleet, i: nat, d: Cluster) {
    && i < |f.members| == |g.members| && g.At(i) == d
    && forall j :: 0 <= j < |f.members| && j != i ==> g.members[j] == f.members[j]
  }

  lemma {:induction false} Solo(f: Fleet, i: nat, steps: seq<Step>)
    requires i < |f.members|
    ensures Alone(f, FleetRun(f, TurnsOf(i, steps)), i, Run(World(f.At(i), []), steps).c)
    decreases |steps|
  {
    if steps != [] {
      var t := Turn(i, steps[0]);
      var g := FleetStep(f, t);
      assert Alone(f, g, i, Next(f.At(i), steps[0])) by { hide Next; }
      Solo(g, i, steps[1..]);
      assert ([t] + TurnsOf(i, steps[1..]))[1..] == TurnsOf(i, steps[1..]);
      RunReadsCluster(Apply(World(f.At(i), []), steps[0]), steps[1..]);
      hide FleetStep, Apply;
    }
  }

  lemma {:induction false} TurnsAllowed(i: nat, steps: seq<Step>, claims: seq<Claim>)
    requires i < |claims| && Allowed(steps, claims[i])
    ensures TurnsWithin(TurnsOf(i, steps), claims)
    decreases |steps|
  {
    hide StepWithin;
    if steps != [] { TurnsAllowed(i, steps[1..], claims); }
  }

  lemma TurnsJoin(a: seq<Turn>, b: seq<Turn>, claims: seq<Claim>)
    requires TurnsWithin(a, claims) && TurnsWithin(b, claims)
    ensures TurnsWithin(a + b, claims)
  {
    hide StepWithin;
  }

  function FleetObjects(kind: TrafficKind, f: Fleet): Objects { if kind.VirtualService? then f.vs else f.dr }

  // Everybody may refer to the one object.
  function OneName(f: Fleet, kind: TrafficKind, name: string): seq<Claim> {
    seq(|f.members|, i requires 0 <= i < |f.members| => OneClaim(kind, name))
  }

  // Member i runs some steps, by itself, and the objects end up as d's.
  lemma MemberRuns(f: Fleet, i: nat, steps: seq<Step>, claims: seq<Claim>, before: Fleet, turns: seq<Turn>)
    returns (g: Fleet, more: seq<Turn>)
    requires i < |f.members| == |claims| && Allowed(steps, claims[i]) && TurnsWithin(turns, claims)
    requires FleetRun(before, turns) == f
    ensures FleetRun(before, more) == g && TurnsWithin(more, claims)
    ensures Alone(f, g, i, Run(World(f.At(i), []), steps).c)
  {
    hide FleetRun, Run, StepWithin;
    more := turns + TurnsOf(i, steps);
    g := FleetRun(before, more);
    FleetAppend(before, turns, TurnsOf(i, steps));
    TurnsAllowed(i, steps, claims);
    TurnsJoin(turns, TurnsOf(i, steps), claims);
    Solo(f, i, steps);
  }

  // ---- the failure ----

  // The original, a change of it, and whatever is made of that.
  lemma Versions(kind: TrafficKind, a: Selector, b: Selector, x: Object)
    requires Changes(kind, a, x)
    ensures var y := Rewrite(kind, a, x).value;
      && Rewrite(kind, b, y).Ok? && Decodes(SpecOf(x)) && Decodes(SpecOf(y))
      && WithSpec(WithSpec(Rewrite(kind, b, y).value, SpecOf(x)), SpecOf(y)) == y
  {
    var y := Rewrite(kind, a, x).value;
    RewriteTwice(kind, a, x);
    ReadableIff(kind, a, y);
    ReadableIff(kind, b, y);
    ChangedDecodes(kind, a, x);
    WithSpecOf(x, SpecOf(x));
    RewriteKeepsRest(kind, a, x, x);
    RewriteKeepsRest(kind, b, x, y);
    var z := Rewrite(kind, b, y).value;
    hide Rewrite, Decodes, Readable;
    SwapSpecs(x, x, z);
    SwapSpecs(x, y, x);
  }

  lemma ChangedDecodes(kind: TrafficKind, sel: Selector, obj: Object)
    requires Changes(kind, sel, obj)
    ensures Decodes(SpecOf(obj)) && Decodes(SpecOf(Rewrite(kind, sel, obj).value))
  {
    assert HTTP[0] == "spec" && HTTP[1..] == ["http"];
    assert ["spec", "host"][1..] == ["host"];
    hide RewriteHttp;
  }

  // Writing the spec of one version over the other gives the one.
  lemma SwapSpecs(x: Object, y: Object, z: Object)
    requires SpecOnly(x, y) && SpecOnly(x, z)
    ensures WithSpec(z, SpecOf(y)) == y
  {
    WithSpecOf(y, SpecOf(x));
    WithSpecOf(z, SpecOf(x));
    assert WithSpec(x, SpecOf(y)) == WithSpec(WithSpec(y, SpecOf(x)), SpecOf(y)) == WithSpec(y, SpecOf(y)) == y;
    assert WithSpec(x, SpecOf(y)) == WithSpec(WithSpec(z, SpecOf(x)), SpecOf(y)) == WithSpec(z, SpecOf(y));
  }

  // Steps that bring a workload in so that the object changes.
  lemma ComesInChanging(kind: TrafficKind, c: Cluster, s: Spec, name: string, declared: Option<int32>,
                        target: Option<int32>)
    returns (steps: seq<Step>, sel: Selector)
    requires Free(c) && Translates(c, s, None) && name != "" && name in ObjectsOf(kind, c)
    requires Attainable(declared, target) && Changes(kind, PortSelector(c, declared, target), ObjectsOf(kind, c)[name])
    ensures Allowed(steps, OneClaim(kind, name)) && Changes(kind, sel, ObjectsOf(kind, c)[name])
    ensures var x := ObjectsOf(kind, c)[name];
      CameIn(kind, c, Run(World(c, []), steps).c, name, x, Rewrite(kind, sel, x).value)
  {
    var x := ObjectsOf(kind, c)[name];
    sel := PortSelector(c, declared, declared);
    ReadableIff(kind, sel, x);
    ReadableIff(kind, PortSelector(c, declared, target), x);
    hide Rewrite, Readable, CameIn, Translated, Free, Run;
    if Changes(kind, sel, x) {
      steps := ComesIn(kind, c, s, name, declared);
    } else {
      sel := PortSelector(c, declared, target);
      steps := ComesInFurther(kind, c, s, name, declared, target.value);
    }
  }

  ghost predicate CanJoin(f: Fleet, i: nat, s: Spec) {
    i < |f.members| && Free(f.At(i)) && Translates(f.At(i), s, None)
  }

  // Member i's adoption is in and has recorded obj.
  ghost predicate IsIn(f: Fleet, i: nat, kind: TrafficKind, name: string, obj: Object) {
    && i < |f.members| && f.members[i].cr.Some? && f.members[i].cr.value.finalizers == BOTH
    && Records(kind, f.members[i].cr.value.status.snapshot, name, obj)
  }

  ghost predicate SameMember(f: Fleet, g: Fleet, i: nat) {
    |f.members| == |g.members| && (i < |f.members| ==> g.members[i] == f.members[i])
  }

  // What one member's visit leaves behind: the objects, and every other member.
  ghost predicate Visited(f: Fleet, g: Fleet, i: nat, kind: TrafficKind, name: string, obj: Object) {
    && FleetObjects(kind, g) == FleetObjects(kind, f)[name := obj]
    && FleetObjects(Other(kind), g) == FleetObjects(Other(kind), f)
    && forall j :: j != i ==> SameMember(f, g, j)
  }

  lemma Visits(f: Fleet, g: Fleet, i: nat, d: Cluster, kind: TrafficKind, name: string, obj: Object)
    requires Alone(f, g, i, d) && i < |f.members|
    requires ObjectsOf(kind, d) == ObjectsOf(kind, f.At(i))[name := obj]
    requires ObjectsOf(Other(kind), d) == ObjectsOf(Other(kind), f.At(i))
    ensures Visited(f, g, i, kind, name, obj)
  {
  }

  lemma StillCanJoin(f: Fleet, g: Fleet, i: nat, s: Spec)
    requires CanJoin(f, i, s) && SameMember(f, g, i)
    ensures CanJoin(g, i, s)
  {
    SameTranslation(f.At(i), g.At(i), s);
    hide Translated;
  }

  // Turns that lead from one fleet to another within the one name.
  ghost predicate Leads(f: Fleet, turns: seq<Turn>, g: Fleet, kind: TrafficKind, name: string) {
    |g.members| == |f.members| && FleetRun(f, turns) == g && TurnsWithin(turns, OneName(f, kind, name))
  }

  lemma LeadsOn(f: Fleet, turns: seq<Turn>, g: Fleet, kind: TrafficKind, name: string, i: nat, steps: seq<Step>)
    returns (h: Fleet, more: seq<Turn>)
    requires Leads(f, turns, g, kind, name) && i < |g.members| && Allowed(steps, OneClaim(kind, name))
    ensures Leads(f, more, h, kind, name) && Alone(g, h, i, Run(World(g.At(i), []), steps).c)
  {
    hide FleetRun, Run, TurnsWithin, Allowed, Alone;
    h, more := MemberRuns(g, i, steps, OneName(f, kind, name), f, turns);
  }

  lemma StartRun(f: Fleet, kind: TrafficKind, name: string)
    ensures Leads(f, [], f, kind, name)
  {
  }

  // Member i comes in and changes the object.
  lemma FirstComesIn(f: Fleet, kind: TrafficKind, name: string, i: nat, a: Spec, declared: Option<int32>,
                     target: Option<int32>)
    returns (g: Fleet, turns: seq<Turn>, sel: Selector)
    requires CanJoin(f, i, a) && name != "" && name in FleetObjects(kind, f) && Attainable(declared, target)
    requires Changes(kind, PortSelector(f.At(i), declared, target), FleetObjects(kind, f)[name])
    ensures Leads(f, turns, g, kind, name) && Changes(kind, sel, FleetObjects(kind, f)[name])
    ensures Visited(f, g, i, kind, name, Rewrite(kind, sel, FleetObjects(kind, f)[name]).value)
    ensures IsIn(g, i, kind, name, FleetObjects(kind, f)[name])
  {
    hide Leads, Run, Rewrite, Records, Free, Translated, Attainable, PortSelector;
    var steps;
    steps, sel := ComesInChanging(kind, f.At(i), a, name, declared, target);
    StartRun(f, kind, name);
    g, turns := LeadsOn(f, [], f, kind, name, i, steps);
    Visits(f, g, i, g.At(i), kind, name, Rewrite(kind, sel, FleetObjects(kind, f)[name]).value);
    hide Changes, Visited;
  }

  // Member j comes in after it.
  lemma NextComesIn(f: Fleet, kind: TrafficKind, name: string, j: nat, b: Spec, before: Fleet, turns: seq<Turn>)
    returns (g: Fleet, more: seq<Turn>)
    requires CanJoin(f, j, b) && name != "" && name in FleetObjects(kind, f) && Leads(before, turns, f, kind, name)
    requires Rewrite(kind, PortSelector(f.At(j), None, None), FleetObjects(kind, f)[name]).Ok?
    ensures Leads(before, more, g, kind, name)
    ensures Visited(f, g, j, kind, name,
                    Rewrite(kind, PortSelector(f.At(j), None, None), FleetObjects(kind, f)[name]).value)
    ensures IsIn(g, j, kind, name, FleetObjects(kind, f)[name])
  {
    hide Leads, Run, Rewrite, Records, Free, Translated, PortSelector;
    var steps := ComesIn(kind, f.At(j), b, name, None);
    g, more := LeadsOn(before, turns, f, kind, name, j, steps);
    Visits(f, g, j, g.At(j), kind, name,
           Rewrite(kind, PortSelector(f.At(j), None, None), FleetObjects(kind, f)[name]).value);
    hide Visited;
  }

  // Member i goes.
  lemma OneGoes(f: Fleet, kind: TrafficKind, name: string, i: nat, x: Object, before: Fleet, turns: seq<Turn>)
    returns (g: Fleet, more: seq<Turn>)
    requires IsIn(f, i, kind, name, x) && name != "" && name in FleetObjects(kind, f) && Decodes(SpecOf(x))
    requires Leads(before, turns, f, kind, name)
    ensures Leads(before, more, g, kind, name) && i < |g.members| && g.members[i].cr.None?
    ensures Visited(f, g, i, kind, name, WithSpec(FleetObjects(kind, f)[name], SpecOf(x)))
  {
    hide Leads, Run, Records, SpecOf, WithSpec, Decodes;
    var steps := Goes(kind, f.At(i), name, x);
    g, more := LeadsOn(before, turns, f, kind, name, i, steps);
    Visits(f, g, i, g.At(i), kind, name, WithSpec(FleetObjects(kind, f)[name], SpecOf(x)));
    hide Visited;
  }

  lemma StaysIn(f: Fleet, g: Fleet, i: nat, j: nat, kind: TrafficKind, name: string, obj: Object, x: Object)
    requires IsIn(f, i, kind, name, x) && Visited(f, g, j, kind, name, obj) && i != j
    ensures IsIn(g, i, kind, name, x)
  {
    hide Records;
    assert SameMember(f, g, i);
  }

  // Two visits in a row leave the second one's version of the object.
  lemma VisitsChain(f: Fleet, g: Fleet, h: Fleet, i: nat, j: nat, kind: TrafficKind, name: string, y: Object, z: Object)
    requires Visited(f, g, i, kind, name, y) && Visited(g, h, j, kind, name, z)
    ensures FleetObjects(kind, h) == FleetObjects(kind, f)[name := z]
    ensures name in FleetObjects(kind, g) && FleetObjects(kind, g)[name] == y
    ensures forall m :: m != i && m != j ==> SameMember(f, h, m)
  {
    forall m | m != i && m != j
      ensures SameMember(f, h, m)
    {
      assert SameMember(f, g, m) && SameMember(g, h, m);
    }
  }

  lemma Joined(f: Fleet, j: nat, b: Spec)
    requires CanJoin(f, j, b)
    ensures j < |f.members|
  {
  }

  lemma VisitedMember(f: Fleet, g: Fleet, i: nat, j: nat, kind: TrafficKind, name: string, obj: Object)
    requires Visited(f, g, i, kind, name, obj) && i != j
    ensures SameMember(f, g, j) && name in FleetObjects(kind, g) && FleetObjects(kind, g)[name] == obj
  {
  }

  lemma LastSame(f: Fleet, g: Fleet, h: Fleet, i: nat, j: nat)
    requires forall m :: m != i && m != j ==> SameMember(f, g, m)
    requires forall m :: m != i && m != j ==> SameMember(g, h, m)
    ensures forall m :: m != i && m != j ==> SameMember(f, h, m)
  {
    forall m | m != i && m != j
      ensures SameMember(f, h, m)
    {
      assert SameMember(f, g, m) && SameMember(g, h, m);
    }
  }

  lemma SameCr(f: Fleet, g: Fleet, i: nat)
    requires i < |f.members| && SameMember(f, g, i)
    ensures i < |g.members| && g.members[i].cr == f.members[i].cr
  {
  }

  // The first member goes, then the second.
  lemma BothGo(f: Fleet, f2: Fleet, kind: TrafficKind, name: string, i: nat, j: nat, x: Object, y: Object, z: Object,
               t2: seq<Turn>)
    returns (g: Fleet, turns: seq<Turn>)
    requires i != j && IsIn(f2, i, kind, name, x) && IsIn(f2, j, kind, name, y) && name != ""
    requires Leads(f, t2, f2, kind, name)
    requires name in FleetObjects(kind, f2) && FleetObjects(kind, f2)[name] == z && Decodes(SpecOf(x))
    requires Decodes(SpecOf(y))
    requires WithSpec(WithSpec(z, SpecOf(x)), SpecOf(y)) == y
    requires forall m :: m != i && m != j ==> SameMember(f, f2, m)
    ensures Leads(f, turns, g, kind, name)
    ensures i < |g.members| && g.members[i].cr.None? && j < |g.members| && g.members[j].cr.None?
    ensures forall m :: m != i && m != j ==> SameMember(f, g, m)
    ensures name in FleetObjects(kind, g) && FleetObjects(kind, g)[name] == y
  {
    hide Leads, SpecOf, WithSpec, Decodes, IsIn, Visited, FleetObjects, SameMember;
    var f3, t3 := OneGoes(f2, kind, name, i, x, f, t2);
    var v := WithSpec(z, SpecOf(x));
    StaysIn(f2, f3, j, i, kind, name, v, y);
    VisitedMember(f2, f3, i, j, kind, name, v);
    g, turns := OneGoes(f3, kind, name, j, y, f, t3);
    VisitsChain(f2, f3, g, i, j, kind, name, v, y);
    VisitedMember(f3, g, j, i, kind, name, y);
    LastSame(f, f2, g, i, j);
    SameCr(f3, g, i);
  }

  // A shared object that some rewrite of a sharer changes is not given back: the
  // second adoption records the first one's rewrite and writes it back at the end.
  lemma SharedIsNotRestored(f: Fleet, kind: TrafficKind, name: string, i: nat, j: nat, a: Spec, b: Spec,
                            declared: Option<int32>, target: Option<int32>)
    returns (g: Fleet, turns: seq<Turn>)
    requires i != j && CanJoin(f, i, a) && CanJoin(f, j, b) && name != "" && name in FleetObjects(kind, f)
    requires Attainable(declared, target)
    requires Changes(kind, PortSelector(f.At(i), declared, target), FleetObjects(kind, f)[name])
    ensures Leads(f, turns, g, kind, name)
    ensures i < |g.members| && g.members[i].cr.None? && j < |g.members| && g.members[j].cr.None?
    ensures forall m :: m != i && m != j ==> SameMember(f, g, m)
    ensures name in FleetObjects(kind, g) && FleetObjects(kind, g)[name] != FleetObjects(kind, f)[name]
  {
    hide Leads, PortSelector, CanJoin, Attainable, Rewrite, SpecOf, WithSpec, Decodes, IsIn, Visited, FleetObjects;
    hide SameMember;
    var x := FleetObjects(kind, f)[name];
    var f1, t1, sel := FirstComesIn(f, kind, name, i, a, declared, target);
    var y := Rewrite(kind, sel, x).value;
    VisitedMember(f, f1, i, j, kind, name, y);
    StillCanJoin(f, f1, j, b);
    Joined(f1, j, b);
    var other := PortSelector(f1.At(j), None, None);
    Versions(kind, sel, other, x);
    var f2, t2 := NextComesIn(f1, kind, name, j, b, f, t1);
    var z := Rewrite(kind, other, y).value;
    VisitsChain(f, f1, f2, i, j, kind, name, y, z);
    StaysIn(f1, f2, i, j, kind, name, z, x);
    g, turns := BothGo(f, f2, kind, name, i, j, x, y, z, t2);
  }

  // ---- the exact condition ----

  // A workload that can be adopted: its Service, if it has one, is an ordinary one.
  ghost predicate CanBeAdopted(c: Cluster) {
    Initial(c) && Free(c) && exists s :: Translates(c, s, None)
  }

  // A run in which nobody refers to anything else gives every object back.
  ghost predicate GivesBack(f: Fleet, kind: TrafficKind, name: string, turns: seq<Turn>) {
    var g := FleetRun(f, turns);
    TurnsWithin(turns, OneName(f, kind, name)) && (forall i :: 0 <= i < |g.members| ==> g.At(i).cr.None?) ==>
      g.vs == f.vs && g.dr == f.dr
  }

  // Adoptions that share an object always give it back exactly when no rewrite that
  // any of them can ask for changes it.
  lemma SharingIsHarmlessIff(f: Fleet, kind: TrafficKind, name: string)
    requires |f.members| >= 2 && name != "" && name in FleetObjects(kind, f)
    requires forall i :: 0 <= i < |f.members| ==> CanBeAdopted(f.At(i))
    ensures (forall turns :: GivesBack(f, kind, name, turns))
       <==> (forall i :: 0 <= i < |f.members| ==> Inert(kind, f.At(i), FleetObjects(kind, f)[name]))
  {
    if forall i :: 0 <= i < |f.members| ==> Inert(kind, f.At(i), FleetObjects(kind, f)[name]) {
      forall turns
        ensures GivesBack(f, kind, name, turns)
      {
        InertIsGivenBack(f, kind, name, turns);
      }
    } else {
      var i :| 0 <= i < |f.members| && !Inert(kind, f.At(i), FleetObjects(kind, f)[name]);
      var turns := NotInertIsNot(f, kind, name, i);
      assert !GivesBack(f, kind, name, turns);
    }
  }

  lemma NotInertIsNot(f: Fleet, kind: TrafficKind, name: string, i: nat) returns (turns: seq<Turn>)
    requires |f.members| >= 2 && name != "" && name in FleetObjects(kind, f) && i < |f.members|
    requires forall m :: 0 <= m < |f.members| ==> CanBeAdopted(f.At(m))
    requires !Inert(kind, f.At(i), FleetObjects(kind, f)[name])
    ensures !GivesBack(f, kind, name, turns)
  {
    hide Changes, PortSelector, Attainable, Translates, FleetRun, TurnsWithin, OneName;
    assert forall m :: 0 <= m < |f.members| ==> CanBeAdopted(f.At(m)) && f.At(m).cr.None?;
    var j := if i == 0 then 1 else 0;
    var a :| Translates(f.At(i), a, None);
    var b :| Translates(f.At(j), b, None);
    var declared, target :| Attainable(declared, target)
      && Changes(kind, PortSelector(f.At(i), declared, target), FleetObjects(kind, f)[name]);
    var g, t := SharedIsNotRestored(f, kind, name, i, j, a, b, declared, target);
    turns := t;
    forall m | 0 <= m < |g.members|
      ensures g.At(m).cr.None?
    {
      if m != i && m != j { assert SameMember(f, g, m) && CanBeAdopted(f.At(m)); }
    }
  }

  lemma InertMembers(f: Fleet, kind: TrafficKind, name: string)
    requires forall i :: 0 <= i < |f.members| ==> CanBeAdopted(f.At(i))
    requires name in FleetObjects(kind, f)
    requires forall i :: 0 <= i < |f.members| ==> Inert(kind, f.At(i), FleetObjects(kind, f)[name])
    ensures AllWithin(f, OneName(f, kind, name), OneClaim(kind, name))
    ensures Compatible(OneName(f, kind, name), OneClaim(kind, name))
  {
    hide Inert, Translates;
    forall i | 0 <= i < |f.members|
      ensures Member(f.At(i), OneClaim(kind, name), OneClaim(kind, name))
    {
      assert CanBeAdopted(f.At(i));
    }
    hide Member;
  }

  lemma InertIsGivenBack(f: Fleet, kind: TrafficKind, name: string, turns: seq<Turn>)
    requires forall i :: 0 <= i < |f.members| ==> CanBeAdopted(f.At(i))
    requires name in FleetObjects(kind, f)
    requires forall i :: 0 <= i < |f.members| ==> Inert(kind, f.At(i), FleetObjects(kind, f)[name])
    ensures GivesBack(f, kind, name, turns)
  {
    var g := FleetRun(f, turns);
    if TurnsWithin(turns, OneName(f, kind, name)) && (forall i :: 0 <= i < |g.members| ==> g.At(i).cr.None?) {
      hide Inert, FleetRun, TurnsWithin, Initial, Free, Translates, AllWithin, Compatible;
      InertMembers(f, kind, name);
      assert forall i :: 0 <= i < |f.members| ==> CanBeAdopted(f.At(i)) && Initial(f.At(i));
      FleetReleased(f, turns, OneName(f, kind, name), OneClaim(kind, name));
    }
  }
}
