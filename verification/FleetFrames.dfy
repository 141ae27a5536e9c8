// Traffic objects that several adoptions may refer to because none of them has
// anything to change there.
module FleetFrames {
  import opened Basics
  import opened Traffic
  import opened TrafficTheorems
  import opened Translator
  import opened Protocol
  import opened ProtocolInvariants
  import opened ProtocolTheorems
  import opened Fleet

  // ---- inert objects ----

  // The ports a traffic stage can work with: the declared one, and as its target
  // that same one or a live Service's.
  predicate Attainable(declared: Option<int32>, target: Option<int32>) {
    target == declared || (target.Some? && target.value > 0)
  }

  function PortSelector(c: Cluster, declared: Option<int32>, target: Option<int32>): Selector {
    SelectorOf(c.name, c.namespace, declared, target)
  }

  predicate Changes(kind: TrafficKind, sel: Selector, obj: Object) {
    Rewrite(kind, sel, obj).Ok? && Rewrite(kind, sel, obj).value != obj
  }

  // No rewrite that this workload can ask for changes the object.
  ghost predicate Inert(kind: TrafficKind, c: Cluster, obj: Object) {
    forall declared, target :: Attainable(declared, target) ==> !Changes(kind, PortSelector(c, declared, target), obj)
  }

  lemma InertSelector(kind: TrafficKind, c: Cluster, d: Cluster, t: TrafficSpec, obj: Object)
    requires Inert(kind, c, obj) && d.name == c.name && d.namespace == c.namespace
    ensures !Changes(kind, SelectorFor(d, t), obj)
  {
    hide Changes;
    assert SelectorFor(d, t) == PortSelector(c, t.servicePort, TargetPort(d, t));
  }

  // ---- shared names ----

  ghost predicate Same(a: Objects, b: Objects, names: set<string>) {
    forall n :: n in names ==> (n in a <==> n in b) && (n in a ==> b[n] == a[n])
  }

  // What is recorded of a shared object is what it is.
  ghost predicate SnapsTrue(objs: Objects, snaps: seq<ObjectSnapshot>, shared: set<string>) {
    forall i :: 0 <= i < |snaps| && snaps[i].name in shared ==>
      snaps[i].name in objs && snaps[i].spec == SpecOf(objs[snaps[i].name])
  }

  ghost predicate AllInert(objs: Objects, kind: TrafficKind, c: Cluster, names: set<string>) {
    forall n :: n in names && n in objs ==> Inert(kind, c, objs[n])
  }

  ghost predicate Recorded(c: Cluster, s: Option<Snapshot>, shared: Claim) {
    SnapsTrue(c.vs, SnapVS(s), shared.vs) && SnapsTrue(c.dr, SnapDR(s), shared.dr)
  }

  // A member with claim k leaves the shared objects alone.
  ghost predicate Harmless(c: Cluster, k: Claim, shared: Claim) {
    AllInert(c.vs, VirtualService, c, k.vs * shared.vs) && AllInert(c.dr, DestinationRule, c, k.dr * shared.dr)
  }

  ghost predicate Sound(c: Cluster, k: Claim, shared: Claim) {
    Harmless(c, k, shared) && (c.cr.Some? ==> Recorded(c, c.cr.value.status.snapshot, shared))
  }

  ghost predicate SharedKept(c: Cluster, d: Cluster, shared: Claim) {
    d.name == c.name && d.namespace == c.namespace && Same(c.vs, d.vs, shared.vs) && Same(c.dr, d.dr, shared.dr)
  }

  lemma HarmlessKept(c: Cluster, d: Cluster, k: Claim, shared: Claim)
    requires Harmless(c, k, shared) && SharedKept(c, d, shared)
    ensures Harmless(d, k, shared)
  {
    hide Changes;
    forall kind, obj | Inert(kind, c, obj)
      ensures Inert(kind, d, obj)
    {
      assert forall x, y :: PortSelector(d, x, y) == PortSelector(c, x, y);
    }
    hide Inert;
  }

  lemma RecordedKept(c: Cluster, d: Cluster, s: Option<Snapshot>, shared: Claim)
    requires Recorded(c, s, shared) && SharedKept(c, d, shared)
    ensures Recorded(d, s, shared)
  {
    hide SpecOf;
  }

  // ---- the two loops ----

  lemma AdaptOneKept(a: Adapt, shared: set<string>, name: string, get: bool, patch: bool, kind: TrafficKind,
                     sel: Selector)
    requires SnapsTrue(a.objs, a.snaps, shared)
    requires name != "" && name in shared && name in a.objs ==> !Changes(kind, sel, a.objs[name])
    ensures var b := AdaptOne(a, name, get, patch, kind, sel);
      Same(a.objs, b.objs, shared) && SnapsTrue(b.objs, b.snaps, shared)
  {
    hide Rewrite, SpecOf;
  }

  lemma {:induction false} AdaptAllKept(a: Adapt, shared: set<string>, kind: TrafficKind, refs: seq<string>, n: nat,
                                        faults: set<Call>, sel: Selector)
    requires n <= |refs| && SnapsTrue(a.objs, a.snaps, shared)
    requires forall i :: 0 <= i < |refs| && refs[i] != "" && refs[i] in shared && refs[i] in a.objs ==>
      !Changes(kind, sel, a.objs[refs[i]])
    ensures var b := AdaptAll(a, kind, refs, n, faults, sel);
      Same(a.objs, b.objs, shared) && SnapsTrue(b.objs, b.snaps, shared)
  {
    hide AdaptOne, Changes, SnapsTrue;
    if n > 0 {
      AdaptAllKept(a, shared, kind, refs, n - 1, faults, sel);
      AdaptOneKept(AdaptAll(a, kind, refs, n - 1, faults, sel), shared, refs[n - 1],
                   GetRef(kind, n - 1) !in faults, PatchRef(kind, n - 1) !in faults, kind, sel);
    }
  }

  lemma UndoOneKept(u: Undo, shared: set<string>, s: ObjectSnapshot, get: bool, write: bool)
    requires s.name in shared ==> s.name in u.objs && s.spec == SpecOf(u.objs[s.name])
    ensures Same(u.objs, UndoOne(u, s, get, write).objs, shared)
  {
    hide SpecOf, WithSpec, Decodes;
  }

  lemma {:induction false} UndoAllKept(u: Undo, shared: set<string>, kind: TrafficKind, snaps: seq<ObjectSnapshot>,
                                       n: nat, faults: set<Call>)
    requires n <= |snaps| && SnapsTrue(u.objs, snaps, shared)
    ensures Same(u.objs, UndoAll(u, kind, snaps, n, faults).objs, shared)
  {
    hide UndoOne, SpecOf;
    if n > 0 {
      UndoAllKept(u, shared, kind, snaps, n - 1, faults);
      UndoOneKept(UndoAll(u, kind, snaps, n - 1, faults), shared, snaps[n - 1],
                  GetSnap(kind, n - 1) !in faults, WriteSnap(kind, n - 1) !in faults);
    }
  }

  // ---- the passes ----

  // The traffic side of two states of a pass agrees.
  ghost predicate SameTraffic(f: Flow, g: Flow) {
    && f.c.name == g.c.name && f.c.namespace == g.c.namespace && f.c.vs == g.c.vs && f.c.dr == g.c.dr
    && SnapVS(f.snapshot) == SnapVS(g.snapshot) && SnapDR(f.snapshot) == SnapDR(g.snapshot)
  }

  lemma SwapSameTraffic(f: Flow, p: Pass)
    ensures SameTraffic(f, SwapStage(f, p)) && SwapStage(f, p).c.dep == f.c.dep
  {
  }

  lemma LateSameTraffic(f: Flow, p: Pass, desired: KService)
    ensures SameTraffic(f, ApplyStage(f, p, desired)) && ApplyStage(f, p, desired).c.dep == f.c.dep
    ensures f.c.dep.Some? ==> SameTraffic(f, QuiesceStage(f, p))
  {
  }

  // Only the traffic stage touches traffic in an adoption pass.
  lemma AdoptTraffic(c: Cluster, a: Adoption, p: Pass)
    ensures var f0 := Flow(c, a.status.snapshot, true, []);
      var g := AdoptFlow(c, a, p);
      SameTraffic(f0, g) || SameTraffic(TrafficStage(SwapStage(f0, p), p, a.spec), g)
  {
    var f0 := Flow(c, a.status.snapshot, true, []);
    var f1 := SwapStage(f0, p);
    SwapSameTraffic(f0, p);
    TrafficKeepsDep(f1, p, a.spec);
    var f2 := TrafficStage(f1, p, a.spec);
    if Translates(c, a.spec, p.report.probe) {
      var desired := Translated(c, a.spec, p.report.probe).value;
      LateSameTraffic(f2, p, desired);
      LateSameTraffic(ApplyStage(f2, p, desired), p, desired);
    }
    hide SwapStage, TrafficStage, ApplyStage, QuiesceStage, Translated;
  }

  // Only its counterpart does in a release pass.
  lemma ReleaseTraffic(c: Cluster, a: Adoption, p: Pass)
    ensures var f0 := Flow(c, a.status.snapshot, true, []);
      var g := ReleaseFlow(c, a, p);
      SameTraffic(f0, g) || SameTraffic(UndoTrafficStage(CascadeStage(f0, p), p), g)
  {
    var f0 := Flow(c, a.status.snapshot, true, []);
    ServicePhaseTraffic(f0, p);
    SourcePhaseFrame(f0, p);
    SourcePhaseFrame(ServicePhase(f0, p), p);
    hide ServicePhase, SourcePhase, CascadeStage, UndoTrafficStage;
  }

  lemma ServicePhaseTraffic(f: Flow, p: Pass)
    ensures var g := ServicePhase(f, p); SameTraffic(f, g) || SameTraffic(UndoTrafficStage(CascadeStage(f, p), p), g)
  {
    var f1 := CascadeStage(f, p);
    CascadeFrame(f, p);
    var f2 := UndoTrafficStage(f1, p);
    RebuildFrame(f2, p);
    hide CascadeStage, UndoTrafficStage, RebuildServiceStage;
  }

  lemma TrafficStageKept(f: Flow, p: Pass, s: Spec, k: Claim, shared: Claim)
    requires Harmless(f.c, k, shared) && SpecWithin(s, k) && Recorded(f.c, f.snapshot, shared)
    ensures var g := TrafficStage(f, p, s); SharedKept(f.c, g.c, shared) && Recorded(g.c, g.snapshot, shared)
  {
    if TrafficEnabled(s) {
      var t := s.traffic.value;
      var sel := SelectorFor(f.c, t);
      RefsInert(f.c, VirtualService, f.c.vs, t, t.vsRefs, k.vs, shared.vs);
      RefsInert(f.c, DestinationRule, f.c.dr, t, t.drRefs, k.dr, shared.dr);
      AdaptAllKept(Adapt(f.c.vs, SnapVS(f.snapshot), true), shared.vs, VirtualService, t.vsRefs, |t.vsRefs|, p.faults,
                   sel);
      AdaptAllKept(Adapt(f.c.dr, SnapDR(f.snapshot), true), shared.dr, DestinationRule, t.drRefs, |t.drRefs|, p.faults,
                   sel);
    }
    hide AdaptAll, SnapsTrue, AllInert, SelectorFor, NamesWithin, Changes;
  }

  lemma RefsInert(c: Cluster, kind: TrafficKind, objs: Objects, t: TrafficSpec, refs: seq<string>, names: set<string>,
                  shared: set<string>)
    requires AllInert(objs, kind, c, names * shared) && NamesWithin(refs, names)
    ensures forall i :: 0 <= i < |refs| && refs[i] != "" && refs[i] in shared && refs[i] in objs ==>
      !Changes(kind, SelectorFor(c, t), objs[refs[i]])
  {
    hide Changes, SelectorFor, Inert;
    forall i | 0 <= i < |refs| && refs[i] != "" && refs[i] in shared && refs[i] in objs
      ensures !Changes(kind, SelectorFor(c, t), objs[refs[i]])
    {
      InertSelector(kind, c, c, t, objs[refs[i]]);
    }
  }

  lemma UndoStageKept(f: Flow, p: Pass, shared: Claim)
    requires Recorded(f.c, f.snapshot, shared)
    ensures SharedKept(f.c, UndoTrafficStage(f, p).c, shared)
  {
    var vs, dr := SnapVS(f.snapshot), SnapDR(f.snapshot);
    UndoAllKept(Undo(f.c.vs, true), shared.vs, VirtualService, vs, |vs|, p.faults);
    UndoAllKept(Undo(f.c.dr, true), shared.dr, DestinationRule, dr, |dr|, p.faults);
    hide UndoAll, SnapsTrue;
  }

  lemma RecordedReader(f: Flow, g: Flow, shared: Claim)
    requires SameTraffic(f, g) && Recorded(f.c, f.snapshot, shared)
    ensures Recorded(g.c, g.snapshot, shared)
  {
    hide SnapsTrue;
  }

  lemma AdoptKept(c: Cluster, a: Adoption, p: Pass, k: Claim, shared: Claim)
    requires Harmless(c, k, shared) && SpecWithin(a.spec, k) && Recorded(c, a.status.snapshot, shared)
    ensures var g := AdoptFlow(c, a, p); SharedKept(c, g.c, shared) && Recorded(g.c, g.snapshot, shared)
  {
    var f0 := Flow(c, a.status.snapshot, true, []);
    var f1, g := SwapStage(f0, p), AdoptFlow(c, a, p);
    SwapSameTraffic(f0, p);
    assert SharedKept(c, f1.c, shared);
    HarmlessKept(c, f1.c, k, shared);
    RecordedReader(f0, f1, shared);
    TrafficStageKept(f1, p, a.spec, k, shared);
    AdoptTraffic(c, a, p);
    hide Recorded, Harmless, SwapStage, TrafficStage, AdoptFlow;
    var from := if SameTraffic(f0, g) then f0 else TrafficStage(f1, p, a.spec);
    RecordedReader(from, g, shared);
  }

  lemma ReleaseKept(c: Cluster, a: Adoption, p: Pass, shared: Claim)
    requires Recorded(c, a.status.snapshot, shared)
    ensures var g := ReleaseFlow(c, a, p); SharedKept(c, g.c, shared)
  {
    var f0 := Flow(c, a.status.snapshot, true, []);
    CascadeFrame(f0, p);
    UndoStageKept(CascadeStage(f0, p), p, shared);
    ReleaseTraffic(c, a, p);
    hide Recorded, CascadeStage, UndoTrafficStage, ReleaseFlow;
  }

  // A step within the claim keeps every shared object, and the member harmless.
  lemma StepSound(c: Cluster, s: Step, k: Claim, shared: Claim)
    requires Within(c, k) && StepWithin(s, k) && Sound(c, k, shared)
    ensures SharedKept(c, Next(c, s), shared) && Sound(Next(c, s), k, shared)
  {
    if s.ReconcileStep? && c.cr.Some? {
      if c.cr.value.deleting { ReleaseSound(c, s.p, k, shared); } else { AdoptSound(c, s.p, k, shared); }
    } else {
      OthersSound(c, s, k, shared);
    }
    hide Next, SharedKept, Sound;
  }

  lemma OthersSound(c: Cluster, s: Step, k: Claim, shared: Claim)
    requires Sound(c, k, shared) && (s.ReconcileStep? ==> c.cr.None?)
    ensures SharedKept(c, Next(c, s), shared) && Sound(Next(c, s), k, shared)
  {
    var d := Others(c, s);
    OthersIgnoreObjects(c, s, c.vs, c.dr);
    OthersRecord(c, s);
    assert d.name == c.name && d.namespace == c.namespace;
    assert SharedKept(c, d, shared);
    HarmlessKept(c, d, k, shared);
    if c.cr.Some? { RecordedKept(c, d, c.cr.value.status.snapshot, shared); }
    NothingRecorded(d, shared);
    hide Harmless, Recorded, SharedKept, Others, AdoptPass, ReleasePass;
  }

  lemma NothingRecorded(c: Cluster, shared: Claim)
    ensures Recorded(c, None, shared)
  {
  }

  // Nobody but the reconciler writes snapshots.
  lemma OthersRecord(c: Cluster, s: Step)
    ensures var d := Others(c, s);
      d.cr.Some? ==> d.cr.value.status.snapshot == if c.cr.Some? then c.cr.value.status.snapshot else None
  {
  }

  lemma AdoptSound(c: Cluster, p: Pass, k: Claim, shared: Claim)
    requires Within(c, k) && Sound(c, k, shared) && c.cr.Some? && !c.cr.value.deleting
    ensures var d := Next(c, ReconcileStep(p)); SharedKept(c, d, shared) && Sound(d, k, shared)
  {
    var a := c.cr.value.(finalizers := BOTH);
    var e := c.(cr := Some(a));
    var d, g := Next(c, ReconcileStep(p)), AdoptFlow(e, a, p);
    assert SharedKept(c, c, shared) && SharedKept(c, e, shared);
    HarmlessKept(c, e, k, shared);
    RecordedKept(c, e, a.status.snapshot, shared);
    AdoptKept(e, a, p, k, shared);
    AdoptKeepsCr(e, a, p);
    RecordedKept(c, g.c, a.status.snapshot, shared);
    hide AdoptFlow, Harmless, Recorded, SpecWithin, StatusEqual, Same;
    assert SharedKept(c, d, shared);
    HarmlessKept(c, d, k, shared);
    if d != c {
      assert SharedKept(g.c, d, shared) by { SameItself(d, shared); }
      RecordedKept(g.c, d, g.snapshot, shared);
      RecordedKept(g.c, d, a.status.snapshot, shared);
    }
  }

  lemma SameItself(c: Cluster, shared: Claim)
    ensures Same(c.vs, c.vs, shared.vs) && Same(c.dr, c.dr, shared.dr)
  {
  }

  lemma ReleaseSound(c: Cluster, p: Pass, k: Claim, shared: Claim)
    requires Sound(c, k, shared) && c.cr.Some? && c.cr.value.deleting
    ensures var d := Next(c, ReconcileStep(p)); SharedKept(c, d, shared) && Sound(d, k, shared)
  {
    var a := c.cr.value;
    var d := Next(c, ReconcileStep(p));
    ReleaseKept(c, a, p, shared);
    ReleaseKeepsSpec(c, a, p);
    ReleaseKeepsSnapshot(c, a, p);
    hide ReleaseFlow, Harmless, Recorded, StatusEqual, Same;
    HarmlessKept(c, d, k, shared);
    RecordedKept(c, d, a.status.snapshot, shared);
  }

  lemma ReleaseKeepsSnapshot(c: Cluster, a: Adoption, p: Pass)
    ensures ReleaseFlow(c, a, p).snapshot == a.status.snapshot
  {
    var f0 := Flow(c, a.status.snapshot, true, []);
    ServicePhaseFrame(f0, p);
    SourcePhaseFrame(f0, p);
    SourcePhaseFrame(ServicePhase(f0, p), p);
    hide ServicePhase, SourcePhase;
  }
}
