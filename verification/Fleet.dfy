// Several workloads of one namespace, each with its adoption, over one set of
// VirtualServices and DestinationRules.
module Fleet {
  import opened Basics
  import opened Json
  import opened Traffic
  import opened TrafficTheorems
  import opened Translator
  import opened Protocol
  import opened ProtocolInvariants
  import opened ProtocolTheorems

  type Objects = map<string, Object>

  // The members' own object maps are not used.
  datatype Fleet = Fleet(members: seq<Cluster>, vs: Objects, dr: Objects)
  {
    // A member with the shared objects.
    function At(i: nat): Cluster
      requires i < |members|
    {
      members[i].(vs := vs, dr := dr)
    }
  }

  datatype Turn = Turn(who: nat, step: Step)

  function Next(c: Cluster, s: Step): Cluster { Apply(World(c, []), s).c }

  function FleetStep(f: Fleet, t: Turn): (g: Fleet)
    ensures |g.members| == |f.members|
  {
    if t.who >= |f.members| then f
    else
      var d := Next(f.At(t.who), t.step);
      Fleet(f.members[t.who := d.(vs := map[], dr := map[])], d.vs, d.dr)
  }

  function FleetRun(f: Fleet, turns: seq<Turn>): (g: Fleet)
    ensures |g.members| == |f.members|
    decreases |turns|
  {
    if turns == [] then f else FleetRun(FleetStep(f, turns[0]), turns[1..])
  }

  // The steps of one member, in order.
  function StepsOf(turns: seq<Turn>, i: nat): seq<Step>
    decreases |turns|
  {
    if turns == [] then []
    else (if turns[0].who == i then [turns[0].step] else []) + StepsOf(turns[1..], i)
  }

  // ---- claims ----

  // The names an adoption may refer to.
  datatype Claim = Claim(vs: set<string>, dr: set<string>)

  predicate NamesWithin(refs: seq<string>, names: set<string>) {
    forall i :: 0 <= i < |refs| ==> refs[i] == "" || refs[i] in names
  }

  predicate SpecWithin(s: Spec, k: Claim) {
    s.traffic.Some? ==> NamesWithin(s.traffic.value.vsRefs, k.vs) && NamesWithin(s.traffic.value.drRefs, k.dr)
  }

  predicate StepWithin(s: Step, k: Claim) { s.WatchStep? || s.UserCreates? || s.UserEdits? ==> SpecWithin(s.spec, k) }

  predicate SnapsWithin(snaps: seq<ObjectSnapshot>, names: set<string>) {
    forall i :: 0 <= i < |snaps| ==> snaps[i].name in names
  }

  predicate SnapshotWithin(s: Option<Snapshot>, k: Claim) {
    SnapsWithin(SnapVS(s), k.vs) && SnapsWithin(SnapDR(s), k.dr)
  }

  predicate Within(c: Cluster, k: Claim) {
    c.cr.Some? ==> SpecWithin(c.cr.value.spec, k) && SnapshotWithin(c.cr.value.status.snapshot, k)
  }

  function Restrict(objs: Objects, names: set<string>): Objects { map n | n in objs && n in names :: objs[n] }

  // A member and what it claims, alone in the namespace.
  function Own(c: Cluster, k: Claim): Cluster { c.(vs := Restrict(c.vs, k.vs), dr := Restrict(c.dr, k.dr)) }

  // Nothing outside the names differs.
  ghost predicate Outside(a: Objects, b: Objects, names: set<string>) {
    forall n :: n !in names ==> (n in a <==> n in b) && (n in a ==> b[n] == a[n])
  }

  // ---- one object ----

  lemma RestrictPut(objs: Objects, names: set<string>, n: string, obj: Object)
    requires n in names
    ensures Restrict(objs[n := obj], names) == Restrict(objs, names)[n := obj]
    ensures Outside(objs, objs[n := obj], names)
  {
  }

  lemma AdaptOneOwn(a: Adapt, names: set<string>, name: string, get: bool, patch: bool, kind: TrafficKind,
                    sel: Selector)
    requires (name == "" || name in names) && SnapsWithin(a.snaps, names)
    ensures var b := AdaptOne(a, name, get, patch, kind, sel);
      && AdaptOne(a.(objs := Restrict(a.objs, names)), name, get, patch, kind, sel)
         == b.(objs := Restrict(b.objs, names))
      && Outside(a.objs, b.objs, names) && SnapsWithin(b.snaps, names)
  {
    hide Rewrite;
    if name != "" && name in a.objs && Rewrite(kind, sel, a.objs[name]).Ok? {
      RestrictPut(a.objs, names, name, Rewrite(kind, sel, a.objs[name]).value);
    }
  }

  lemma OutsideChain(a: Objects, b: Objects, c: Objects, names: set<string>)
    requires Outside(a, b, names) && Outside(b, c, names)
    ensures Outside(a, c, names)
  {
  }

  lemma {:induction false} AdaptAllOwn(a: Adapt, names: set<string>, kind: TrafficKind, refs: seq<string>, n: nat,
                                       faults: set<Call>, sel: Selector)
    requires n <= |refs| && NamesWithin(refs, names) && SnapsWithin(a.snaps, names)
    ensures var b := AdaptAll(a, kind, refs, n, faults, sel);
      && AdaptAll(a.(objs := Restrict(a.objs, names)), kind, refs, n, faults, sel)
         == b.(objs := Restrict(b.objs, names))
      && Outside(a.objs, b.objs, names) && SnapsWithin(b.snaps, names)
  {
    hide AdaptOne, Restrict, Outside, SnapsWithin;
    if n == 0 {
      OutsideSame(a.objs, names);
    } else {
      AdaptAllOwn(a, names, kind, refs, n - 1, faults, sel);
      var b := AdaptAll(a, kind, refs, n - 1, faults, sel);
      AdaptOneOwn(b, names, refs[n - 1], GetRef(kind, n - 1) !in faults, PatchRef(kind, n - 1) !in faults, kind, sel);
      OutsideChain(a.objs, b.objs, AdaptAll(a, kind, refs, n, faults, sel).objs, names);
    }
  }

  lemma OutsideSame(a: Objects, names: set<string>)
    ensures Outside(a, a, names)
  {
  }

  lemma UndoOneOwn(u: Undo, names: set<string>, s: ObjectSnapshot, get: bool, write: bool)
    requires s.name in names
    ensures var v := UndoOne(u, s, get, write);
      && UndoOne(u.(objs := Restrict(u.objs, names)), s, get, write) == v.(objs := Restrict(v.objs, names))
      && Outside(u.objs, v.objs, names)
  {
    hide SpecOf, WithSpec, Decodes;
    RestrictPut(u.objs, names, s.name, WithSpec(if s.name in u.objs then u.objs[s.name] else map[], s.spec));
  }

  lemma {:induction false} UndoAllOwn(u: Undo, names: set<string>, kind: TrafficKind, snaps: seq<ObjectSnapshot>,
                                      n: nat, faults: set<Call>)
    requires n <= |snaps| && SnapsWithin(snaps, names)
    ensures var v := UndoAll(u, kind, snaps, n, faults);
      && UndoAll(u.(objs := Restrict(u.objs, names)), kind, snaps, n, faults) == v.(objs := Restrict(v.objs, names))
      && Outside(u.objs, v.objs, names)
  {
    hide UndoOne, Restrict, Outside;
    if n == 0 {
      OutsideSame(u.objs, names);
    } else {
      UndoAllOwn(u, names, kind, snaps, n - 1, faults);
      var v := UndoAll(u, kind, snaps, n - 1, faults);
      UndoOneOwn(v, names, snaps[n - 1], GetSnap(kind, n - 1) !in faults, WriteSnap(kind, n - 1) !in faults);
      OutsideChain(u.objs, v.objs, UndoAll(u, kind, snaps, n, faults).objs, names);
    }
  }

  // ---- one pass ----

  // g is f as the member alone would see it; the logs are not compared.
  ghost predicate Mirrors(f: Flow, g: Flow, k: Claim) {
    g.c == Own(f.c, k) && g.snapshot == f.snapshot && g.go == f.go && SnapshotWithin(f.snapshot, k)
  }

  ghost predicate Framed(c: Cluster, d: Cluster, k: Claim) {
    Outside(c.vs, d.vs, k.vs) && Outside(c.dr, d.dr, k.dr)
  }

  lemma FramedSame(c: Cluster, d: Cluster, k: Claim)
    requires d.vs == c.vs && d.dr == c.dr
    ensures Framed(c, d, k)
  {
  }

  lemma FramedChain(c: Cluster, d: Cluster, e: Cluster, k: Claim)
    requires Framed(c, d, k) && Framed(d, e, k)
    ensures Framed(c, e, k)
  {
  }

  lemma SwapOwn(f: Flow, g: Flow, p: Pass, k: Claim)
    requires Mirrors(f, g, k)
    ensures Mirrors(SwapStage(f, p), SwapStage(g, p), k) && Framed(f.c, SwapStage(f, p).c, k)
  {
    FramedSame(f.c, SwapStage(f, p).c, k);
    hide Restrict, Framed, SnapsWithin;
  }

  lemma TrafficOwn(f: Flow, g: Flow, p: Pass, s: Spec, k: Claim)
    requires Mirrors(f, g, k) && SpecWithin(s, k)
    ensures Mirrors(TrafficStage(f, p, s), TrafficStage(g, p, s), k) && Framed(f.c, TrafficStage(f, p, s).c, k)
  {
    FramedSame(f.c, f.c, k);
    if TrafficEnabled(s) {
      var t := s.traffic.value;
      var sel := SelectorFor(f.c, t);
      assert SelectorFor(g.c, t) == sel;
      AdaptAllOwn(Adapt(f.c.vs, SnapVS(f.snapshot), true), k.vs, VirtualService, t.vsRefs, |t.vsRefs|, p.faults, sel);
      AdaptAllOwn(Adapt(f.c.dr, SnapDR(f.snapshot), true), k.dr, DestinationRule, t.drRefs, |t.drRefs|, p.faults, sel);
    }
    hide AdaptAll, Restrict, Outside, SnapsWithin, SelectorFor, NamesWithin;
  }

  lemma ApplyOwn(f: Flow, g: Flow, p: Pass, desired: KService, k: Claim)
    requires Mirrors(f, g, k)
    ensures Mirrors(ApplyStage(f, p, desired), ApplyStage(g, p, desired), k)
    ensures Framed(f.c, ApplyStage(f, p, desired).c, k)
  {
    FramedSame(f.c, ApplyStage(f, p, desired).c, k);
    hide Restrict, Framed, SnapshotWithin;
  }

  // Scaling to zero reads the workload and the snapshot and keeps the objects.
  lemma QuiesceReadsFlow(f: Flow, g: Flow, p: Pass)
    requires f.c.dep.Some? && f.c.dep == g.c.dep && f.snapshot == g.snapshot && f.go == g.go
    ensures QuiesceStage(f, p).c == f.c.(dep := QuiesceStage(f, p).c.dep)
    ensures QuiesceStage(g, p).c == g.c.(dep := QuiesceStage(f, p).c.dep)
    ensures QuiesceStage(g, p).snapshot == QuiesceStage(f, p).snapshot && QuiesceStage(g, p).go == QuiesceStage(f, p).go
  {
  }

  lemma QuiesceWithin(f: Flow, p: Pass, k: Claim)
    requires f.c.dep.Some? && SnapshotWithin(f.snapshot, k)
    ensures SnapshotWithin(QuiesceStage(f, p).snapshot, k)
  {
    hide SnapsWithin;
  }

  lemma QuiesceOwn(f: Flow, g: Flow, p: Pass, k: Claim)
    requires Mirrors(f, g, k) && f.c.dep.Some?
    ensures Mirrors(QuiesceStage(f, p), QuiesceStage(g, p), k) && Framed(f.c, QuiesceStage(f, p).c, k)
  {
    QuiesceReadsFlow(f, g, p);
    QuiesceWithin(f, p, k);
    FramedSame(f.c, QuiesceStage(f, p).c, k);
    hide Restrict, Framed, SnapshotWithin, QuiesceStage;
  }

  lemma AdoptOwn(c: Cluster, a: Adoption, p: Pass, k: Claim)
    requires SpecWithin(a.spec, k) && SnapshotWithin(a.status.snapshot, k)
    ensures Mirrors(AdoptFlow(c, a, p), AdoptFlow(Own(c, k), a, p), k) && Framed(c, AdoptFlow(c, a, p).c, k)
  {
    var f0, g0 := Flow(c, a.status.snapshot, true, []), Flow(Own(c, k), a.status.snapshot, true, []);
    FramedSame(c, c, k);
    assert Translates(Own(c, k), a.spec, p.report.probe) == Translates(c, a.spec, p.report.probe);
    if Translates(c, a.spec, p.report.probe) {
      var desired := Translated(c, a.spec, p.report.probe).value;
      assert Translated(Own(c, k), a.spec, p.report.probe) == Ok(desired);
      SwapOwn(f0, g0, p, k);
      SwapKeepsDep(f0, p);
      PipelineOwn(SwapStage(f0, p), SwapStage(g0, p), p, a.spec, desired, k);
      FramedChain(c, SwapStage(f0, p).c, Pipeline(SwapStage(f0, p), p, a.spec, desired).c, k);
    }
    hide Framed, Restrict, SnapshotWithin, SwapStage, TrafficStage, ApplyStage, QuiesceStage, Translated, SpecWithin;
  }

  // The stages after the swap.
  function Pipeline(f: Flow, p: Pass, s: Spec, desired: KService): Flow
    requires f.c.dep.Some?
  {
    if !f.go then f else
    var f2 := TrafficStage(f, p, s);
    if !f2.go then f2 else
    var f3 := ApplyStage(f2, p, desired);
    if !f3.go then f3 else QuiesceStage(f3, p)
  }

  lemma PipelineOwn(f: Flow, g: Flow, p: Pass, s: Spec, desired: KService, k: Claim)
    requires Mirrors(f, g, k) && SpecWithin(s, k) && f.c.dep.Some?
    ensures Mirrors(Pipeline(f, p, s, desired), Pipeline(g, p, s, desired), k)
    ensures Framed(f.c, Pipeline(f, p, s, desired).c, k)
  {
    FramedSame(f.c, f.c, k);
    TrafficOwn(f, g, p, s, k);
    TrafficKeepsDep(f, p, s);
    var f2, g2 := TrafficStage(f, p, s), TrafficStage(g, p, s);
    ApplyOwn(f2, g2, p, desired, k);
    var f3, g3 := ApplyStage(f2, p, desired), ApplyStage(g2, p, desired);
    FramedChain(f.c, f2.c, f3.c, k);
    assert f3.c.dep.Some?;
    QuiesceOwn(f3, g3, p, k);
    FramedChain(f.c, f3.c, QuiesceStage(f3, p).c, k);
    hide Framed, Restrict, SnapshotWithin, TrafficStage, ApplyStage, QuiesceStage, SpecWithin;
  }

  lemma SwapKeepsDep(f: Flow, p: Pass)
    ensures SwapStage(f, p).c.dep == f.c.dep
  {
  }

  // The cascade reads the Knative Service and the Service, and changes only those.
  lemma CascadeReadsFlow(f: Flow, g: Flow, p: Pass)
    requires f.c.ksvc == g.c.ksvc && f.c.svc == g.c.svc && f.go == g.go
    ensures CascadeStage(f, p).c == f.c.(ksvc := CascadeStage(f, p).c.ksvc, svc := CascadeStage(f, p).c.svc)
    ensures CascadeStage(g, p).c == g.c.(ksvc := CascadeStage(f, p).c.ksvc, svc := CascadeStage(f, p).c.svc)
    ensures CascadeStage(f, p).snapshot == f.snapshot && CascadeStage(g, p).snapshot == g.snapshot
    ensures CascadeStage(g, p).go == CascadeStage(f, p).go
  {
    hide KnativeOwned;
  }

  lemma CascadeOwn(f: Flow, g: Flow, p: Pass, k: Claim)
    requires Mirrors(f, g, k)
    ensures Mirrors(CascadeStage(f, p), CascadeStage(g, p), k) && Framed(f.c, CascadeStage(f, p).c, k)
  {
    CascadeReadsFlow(f, g, p);
    FramedSame(f.c, CascadeStage(f, p).c, k);
    hide Restrict, Framed, SnapshotWithin, CascadeStage;
  }

  lemma UndoOwn(f: Flow, g: Flow, p: Pass, k: Claim)
    requires Mirrors(f, g, k)
    ensures Mirrors(UndoTrafficStage(f, p), UndoTrafficStage(g, p), k) && Framed(f.c, UndoTrafficStage(f, p).c, k)
  {
    var vs, dr := SnapVS(f.snapshot), SnapDR(f.snapshot);
    UndoAllOwn(Undo(f.c.vs, true), k.vs, VirtualService, vs, |vs|, p.faults);
    UndoAllOwn(Undo(f.c.dr, true), k.dr, DestinationRule, dr, |dr|, p.faults);
    OutsideSame(f.c.dr, k.dr);
    hide UndoAll, Restrict, Outside, SnapsWithin;
  }

  lemma RebuildOwn(f: Flow, g: Flow, p: Pass, k: Claim)
    requires Mirrors(f, g, k)
    ensures Mirrors(RebuildServiceStage(f, p), RebuildServiceStage(g, p), k)
    ensures Framed(f.c, RebuildServiceStage(f, p).c, k)
  {
    FramedSame(f.c, RebuildServiceStage(f, p).c, k);
    hide Restrict, Framed, SnapshotWithin;
  }

  lemma DropOwn(f: Flow, g: Flow, p: Pass, fin: Finalizer, k: Claim)
    requires Mirrors(f, g, k)
    ensures Mirrors(DropFinalizerStage(f, p, fin), DropFinalizerStage(g, p, fin), k)
    ensures Framed(f.c, DropFinalizerStage(f, p, fin).c, k)
  {
    FramedSame(f.c, DropFinalizerStage(f, p, fin).c, k);
    hide Restrict, Framed, SnapshotWithin;
  }

  lemma ReleaseSourceOwn(f: Flow, g: Flow, p: Pass, k: Claim)
    requires Mirrors(f, g, k)
    ensures Mirrors(ReleaseSourceStage(f, p), ReleaseSourceStage(g, p), k) && Framed(f.c, ReleaseSourceStage(f, p).c, k)
  {
    FramedSame(f.c, ReleaseSourceStage(f, p).c, k);
    hide Restrict, Framed, SnapshotWithin;
  }

  lemma ServicePhaseOwn(f: Flow, g: Flow, p: Pass, k: Claim)
    requires Mirrors(f, g, k)
    ensures Mirrors(ServicePhase(f, p), ServicePhase(g, p), k) && Framed(f.c, ServicePhase(f, p).c, k)
  {
    var f1, g1 := CascadeStage(f, p), CascadeStage(g, p);
    CascadeOwn(f, g, p, k);
    var f2, g2 := UndoTrafficStage(f1, p), UndoTrafficStage(g1, p);
    UndoOwn(f1, g1, p, k);
    FramedChain(f.c, f1.c, f2.c, k);
    var f3, g3 := RebuildServiceStage(f2, p), RebuildServiceStage(g2, p);
    RebuildOwn(f2, g2, p, k);
    FramedChain(f.c, f2.c, f3.c, k);
    DropOwn(f3, g3, p, RestoreService, k);
    FramedChain(f.c, f3.c, DropFinalizerStage(f3, p, RestoreService).c, k);
    hide Framed, Own, SnapshotWithin, CascadeStage, UndoTrafficStage, RebuildServiceStage, DropFinalizerStage;
  }

  lemma SourcePhaseOwn(f: Flow, g: Flow, p: Pass, k: Claim)
    requires Mirrors(f, g, k)
    ensures Mirrors(SourcePhase(f, p), SourcePhase(g, p), k) && Framed(f.c, SourcePhase(f, p).c, k)
  {
    var f1, g1 := ReleaseSourceStage(f, p), ReleaseSourceStage(g, p);
    ReleaseSourceOwn(f, g, p, k);
    DropOwn(f1, g1, p, RestoreSource, k);
    FramedChain(f.c, f1.c, DropFinalizerStage(f1, p, RestoreSource).c, k);
    hide Framed, Own, SnapshotWithin, ReleaseSourceStage, DropFinalizerStage;
  }

  lemma ReleaseOwn(c: Cluster, a: Adoption, p: Pass, k: Claim)
    requires SnapshotWithin(a.status.snapshot, k)
    ensures Mirrors(ReleaseFlow(c, a, p), ReleaseFlow(Own(c, k), a, p), k) && Framed(c, ReleaseFlow(c, a, p).c, k)
  {
    var f0, g0 := Flow(c, a.status.snapshot, true, []), Flow(Own(c, k), a.status.snapshot, true, []);
    FramedSame(c, c, k);
    ServicePhaseOwn(f0, g0, p, k);
    SourcePhaseOwn(f0, g0, p, k);
    SourcePhaseOwn(ServicePhase(f0, p), ServicePhase(g0, p), p, k);
    FramedChain(c, ServicePhase(f0, p).c, SourcePhase(ServicePhase(f0, p), p).c, k);
    hide Framed, Own, SnapshotWithin, ServicePhase, SourcePhase;
  }

  // ---- one step ----

  // A step within the claim does to the member alone what it does among others, and
  // touches nothing outside the claim.
  lemma StepOwn(c: Cluster, s: Step, k: Claim)
    requires Within(c, k) && StepWithin(s, k)
    ensures Next(Own(c, k), s) == Own(Next(c, s), k) && Within(Next(c, s), k) && Framed(c, Next(c, s), k)
  {
    if s.ReconcileStep? && c.cr.Some? {
      if c.cr.value.deleting { ReleaseStepOwn(c, s.p, k); } else { AdoptStepOwn(c, s.p, k); }
    } else {
      OthersOwn(c, s, k);
    }
    hide Reconcile, Others, Own, Within, Framed;
  }

  // Everybody but the reconciler neither reads nor writes the objects.
  lemma WatchIgnoresObjects(c: Cluster, spec: Spec, vs: Objects, dr: Objects)
    ensures Watch(c.(vs := vs, dr := dr), spec) == Watch(c, spec).(vs := vs, dr := dr)
    ensures Watch(c, spec).vs == c.vs && Watch(c, spec).dr == c.dr
  {
    assert Labelled(c.(vs := vs, dr := dr)) == Labelled(c);
    DeleteIgnoresObjects(c, vs, dr);
    hide Labelled, DeleteAdoption;
  }

  lemma DeleteIgnoresObjects(c: Cluster, vs: Objects, dr: Objects)
    ensures DeleteAdoption(c.(vs := vs, dr := dr)) == DeleteAdoption(c).(vs := vs, dr := dr)
    ensures DeleteAdoption(c).vs == c.vs && DeleteAdoption(c).dr == c.dr
  {
  }

  predicate ByUser(s: Step) { s.UserCreates? || s.UserEdits? || s.UserLabels? || s.UserDeletes? || s.WatchStep? }

  lemma UsersIgnoreObjects(c: Cluster, s: Step, vs: Objects, dr: Objects)
    requires ByUser(s)
    ensures Others(c.(vs := vs, dr := dr), s) == Others(c, s).(vs := vs, dr := dr)
    ensures Others(c, s).vs == c.vs && Others(c, s).dr == c.dr
  {
    if s.WatchStep? { WatchIgnoresObjects(c, s.spec, vs, dr); }
    DeleteIgnoresObjects(c, vs, dr);
    hide Watch, DeleteAdoption;
  }

  lemma KnativeIgnoresObjects(c: Cluster, s: Step, vs: Objects, dr: Objects)
    requires !ByUser(s)
    ensures Others(c.(vs := vs, dr := dr), s) == Others(c, s).(vs := vs, dr := dr)
    ensures Others(c, s).vs == c.vs && Others(c, s).dr == c.dr
  {
  }

  lemma OthersIgnoreObjects(c: Cluster, s: Step, vs: Objects, dr: Objects)
    ensures Others(c.(vs := vs, dr := dr), s) == Others(c, s).(vs := vs, dr := dr)
    ensures Others(c, s).vs == c.vs && Others(c, s).dr == c.dr
  {
    if ByUser(s) { UsersIgnoreObjects(c, s, vs, dr); } else { KnativeIgnoresObjects(c, s, vs, dr); }
    hide Others;
  }

  lemma OthersCommute(c: Cluster, s: Step, k: Claim)
    ensures Others(Own(c, k), s) == Own(Others(c, s), k) && Others(c, s).vs == c.vs && Others(c, s).dr == c.dr
  {
    OthersIgnoreObjects(c, s, Restrict(c.vs, k.vs), Restrict(c.dr, k.dr));
    hide Others, Restrict;
  }

  lemma OthersWithin(c: Cluster, s: Step, k: Claim)
    requires Within(c, k) && StepWithin(s, k)
    ensures Within(Others(c, s), k)
  {
    assert SnapshotWithin(EMPTY_STATUS.snapshot, k);
    hide SnapshotWithin, SpecWithin;
  }

  lemma OthersOwn(c: Cluster, s: Step, k: Claim)
    requires Within(c, k) && StepWithin(s, k) && (s.ReconcileStep? ==> c.cr.None?)
    ensures Next(Own(c, k), s) == Own(Next(c, s), k) && Within(Next(c, s), k) && Framed(c, Next(c, s), k)
  {
    OthersCommute(c, s, k);
    OthersWithin(c, s, k);
    FramedSame(c, Next(c, s), k);
    hide Own, Framed, Within, Others;
  }

  // The closing status patch.
  lemma PatchOwn(f: Flow, g: Flow, original: AdoptionStatus, report: Report, k: Claim)
    requires Mirrors(f, g, k) && (f.c.cr.Some? ==> SpecWithin(f.c.cr.value.spec, k) && f.c.cr.value.status == original)
    requires SnapshotWithin(original.snapshot, k)
    ensures var d := PatchStatus(f.c, original, Status(f.snapshot, report));
      && PatchStatus(g.c, original, Status(g.snapshot, report)) == Own(d, k) && Within(d, k)
      && d.vs == f.c.vs && d.dr == f.c.dr
  {
    hide SnapshotWithin, Restrict, StatusEqual, SpecWithin;
  }

  lemma AdoptStepOwn(c: Cluster, p: Pass, k: Claim)
    requires Within(c, k) && c.cr.Some? && !c.cr.value.deleting
    ensures var s := ReconcileStep(p);
      Next(Own(c, k), s) == Own(Next(c, s), k) && Within(Next(c, s), k) && Framed(c, Next(c, s), k)
  {
    var a := c.cr.value.(finalizers := BOTH);
    var c1 := c.(cr := Some(a));
    FramedSame(c, c, k);
    AdoptOwn(c1, a, p, k);
    AdoptKeepsCr(c1, a, p);
    assert Own(c1, k) == Own(c, k).(cr := Some(a));
    hide AdoptFlow, Framed, SnapshotWithin, Restrict, PatchStatus, SpecWithin;
    var f := AdoptFlow(c1, a, p);
    PatchOwn(f, AdoptFlow(Own(c1, k), a, p), a.status, p.report, k);
    FramedReader(c1, c, f.c, k);
    FramedTarget(c, f.c, PatchStatus(f.c, a.status, Status(f.snapshot, p.report)), k);
  }

  // Framing reads nothing but the objects.
  lemma FramedReader(c: Cluster, d: Cluster, e: Cluster, k: Claim)
    requires c.vs == d.vs && c.dr == d.dr
    ensures Framed(c, e, k) == Framed(d, e, k)
  {
  }

  lemma FramedTarget(c: Cluster, d: Cluster, e: Cluster, k: Claim)
    requires d.vs == e.vs && d.dr == e.dr
    ensures Framed(c, d, k) == Framed(c, e, k)
  {
  }

  lemma PipelineKeepsCr(f: Flow, p: Pass, s: Spec, desired: KService)
    requires f.c.dep.Some?
    ensures Pipeline(f, p, s, desired).c.cr == f.c.cr
  {
    TrafficKeepsRest(f, p, s);
    TrafficKeepsDep(f, p, s);
    hide TrafficStage;
  }

  lemma AdoptKeepsCr(c: Cluster, a: Adoption, p: Pass)
    ensures AdoptFlow(c, a, p).c.cr == c.cr
  {
    var f1 := SwapStage(Flow(c, a.status.snapshot, true, []), p);
    assert f1.c.cr == c.cr;
    SwapKeepsDep(Flow(c, a.status.snapshot, true, []), p);
    if Translates(c, a.spec, p.report.probe) {
      PipelineKeepsCr(f1, p, a.spec, Translated(c, a.spec, p.report.probe).value);
    }
    hide SwapStage, TrafficStage, ApplyStage, QuiesceStage, Translated;
  }

  lemma ReleaseStepOwn(c: Cluster, p: Pass, k: Claim)
    requires Within(c, k) && c.cr.Some? && c.cr.value.deleting
    ensures var s := ReconcileStep(p);
      Next(Own(c, k), s) == Own(Next(c, s), k) && Within(Next(c, s), k) && Framed(c, Next(c, s), k)
  {
    var a := c.cr.value;
    ReleaseOwn(c, a, p, k);
    ReleaseKeepsSpec(c, a, p);
    FramedTarget(c, ReleaseFlow(c, a, p).c, Next(c, ReconcileStep(p)), k);
    hide ReleaseFlow, Framed, SnapshotWithin, Restrict, StatusEqual, SpecWithin;
  }

  lemma ReleaseKeepsSpec(c: Cluster, a: Adoption, p: Pass)
    requires c.cr == Some(a)
    ensures var d := ReleaseFlow(c, a, p).c;
      d.cr.Some? ==> d.cr.value.spec == a.spec && d.cr.value.status == a.status
  {
    var f0 := Flow(c, a.status.snapshot, true, []);
    ServicePhaseKeepsSpec(f0, p);
    SourcePhaseKeepsSpec(f0, p);
    SourcePhaseKeepsSpec(ServicePhase(f0, p), p);
    hide ServicePhase, SourcePhase;
  }

  ghost predicate KeepsSpec(c: Cluster, d: Cluster) {
    d.cr.Some? ==> c.cr.Some? && d.cr.value.spec == c.cr.value.spec && d.cr.value.status == c.cr.value.status
  }

  lemma ServicePhaseKeepsSpec(f: Flow, p: Pass)
    ensures KeepsSpec(f.c, ServicePhase(f, p).c)
  {
    var f1 := CascadeStage(f, p);
    CascadeFrame(f, p);
    UndoTrafficFrame(f1, p);
    RebuildFrame(UndoTrafficStage(f1, p), p);
    hide CascadeStage, UndoTrafficStage, RebuildServiceStage;
  }

  lemma SourcePhaseKeepsSpec(f: Flow, p: Pass)
    ensures KeepsSpec(f.c, SourcePhase(f, p).c)
  {
  }
}
