// What every step of the adopt / release protocol keeps.
module ProtocolInvariants {
  import opened Basics
  import opened Json
  import opened Traffic
  import opened TrafficTheorems
  import opened Translator
  import opened Protocol

  // The workload as it was before anything was adopted.
  datatype Origin = Origin(
    replicas: Option<int32>, svc: Option<ServiceSpec>, vs: map<string, Object>, dr: map<string, Object>)

  function OriginOf(c: Cluster): Origin {
    Origin(if c.dep.Some? then Some(Effective(c.dep.value.replicas)) else None,
           if c.svc.Some? then Some(c.svc.value.spec) else None, c.vs, c.dr)
  }

  // A spec is an object, null or not there, as the schemas of these kinds have it.
  ghost predicate TypedObjects(objs: map<string, Object>) {
    forall n :: n in objs && "spec" in objs[n] ==> objs[n]["spec"].Obj? || objs[n]["spec"].Null?
  }

  ghost predicate Typed(o: Origin) { TypedObjects(o.vs) && TypedObjects(o.dr) }

  // ---- snapshots only grow ----

  predicate Fills<T(==)>(a: Option<T>, b: Option<T>) { a.Some? ==> b == a }

  ghost predicate Extends(a: Option<Snapshot>, b: Option<Snapshot>) {
    && (a.Some? ==> b.Some?)
    && Fills(SnapReplicas(a), SnapReplicas(b)) && Fills(SnapService(a), SnapService(b))
    && SnapVS(a) <= SnapVS(b) && SnapDR(a) <= SnapDR(b)
  }

  ghost predicate UniqueNames(snaps: seq<ObjectSnapshot>) {
    forall i, j :: 0 <= i < j < |snaps| ==> snaps[i].name != snaps[j].name
  }

  // ---- objects against the origin ----

  ghost predicate DepSafe(o: Origin, dep: Option<Deployment>, replicas: Option<int32>) {
    && dep.Some? == o.replicas.Some?
    && (replicas.Some? ==> replicas == o.replicas)
    && (dep.Some? ==>
          var e := Effective(dep.value.replicas);
          e == o.replicas.value || (e == 0 && replicas.Some?))
  }

  // Whoever owns the name now, the original Service is there or in the snapshot.
  ghost predicate SvcSafe(o: Origin, svc: Option<Service>, kept: Option<ServiceSpec>) {
    && (kept.Some? ==> o.svc.Some? && kept.value == o.svc.value.Strip())
    && (svc.Some? && !KnativeOwned(svc.value) ==> o.svc.Some? && svc.value.spec.Strip() == o.svc.value.Strip())
    && (o.svc.Some? && (svc.None? || KnativeOwned(svc.value)) ==> kept.Some?)
  }

  // Every object equals its origin up to spec, and altogether unless it was snapshotted.
  ghost predicate ObjectsSafe(origin: map<string, Object>, objs: map<string, Object>, snaps: seq<ObjectSnapshot>) {
    && objs.Keys == origin.Keys
    && UniqueNames(snaps)
    && (forall i :: 0 <= i < |snaps| ==>
          snaps[i].name != "" && snaps[i].name in origin && snaps[i].spec == SpecOf(origin[snaps[i].name]))
    && (forall n :: n in objs ==> SpecOnly(origin[n], objs[n]))
    && (forall n :: n in objs && !HasSnapshot(snaps, n) ==> objs[n] == origin[n])
  }

  ghost predicate Safe(o: Origin, c: Cluster, s: Option<Snapshot>) {
    && DepSafe(o, c.dep, SnapReplicas(s))
    && SvcSafe(o, c.svc, SnapService(s))
    && ObjectsSafe(o.vs, c.vs, SnapVS(s))
    && ObjectsSafe(o.dr, c.dr, SnapDR(s))
  }

  // The Service phase of release is complete.
  ghost predicate ServiceSideRestored(o: Origin, c: Cluster) {
    c.ksvc.None? && !Derived(c) && (o.svc.Some? ==> c.svc.Some?) && c.vs == o.vs && c.dr == o.dr
  }

  ghost predicate Inv(o: Origin, c: Cluster) { Typed(o) && Held(o, c) }

  ghost predicate Held(o: Origin, c: Cluster) {
    match c.cr
    case None => Safe(o, c, None) && c.ksvc.None? && !Derived(c)
    case Some(a) =>
      && a.uid < c.nextUid
      && Safe(o, c, a.status.snapshot)
      && (if a.deleting
          then a.finalizers == BOTH || (a.finalizers == {RestoreSource} && ServiceSideRestored(o, c))
          else a.finalizers == BOTH
               || (a.finalizers == {} && a.status.snapshot == None && c.ksvc.None? && !Derived(c)))
  }

  // ---- traffic ----

  lemma SnapshotOnceGrows(origin: map<string, Object>, objs: map<string, Object>, snaps: seq<ObjectSnapshot>,
                          name: string)
    requires ObjectsSafe(origin, objs, snaps) && name in objs && name != ""
    ensures var s := SnapshotOnce(snaps, name, objs[name]);
      ObjectsSafe(origin, objs, s) && HasSnapshot(s, name) && snaps <= s
  {
    var s := SnapshotOnce(snaps, name, objs[name]);
    hide SpecOnly, SpecOf;
    if !HasSnapshot(snaps, name) {
      assert s[|snaps|].name == name;
      assert forall i :: 0 <= i < |snaps| ==> s[i] == snaps[i];
      assert forall n :: HasSnapshot(snaps, n) ==> HasSnapshot(s, n);
    }
  }

  ghost predicate AdaptSafe(origin: map<string, Object>, before: Adapt, after: Adapt) {
    ObjectsSafe(origin, after.objs, after.snaps) && before.snaps <= after.snaps
  }

  lemma AdaptOneSafe(origin: map<string, Object>, a: Adapt, name: string, get: bool, patch: bool,
                     kind: TrafficKind, sel: Selector)
    requires ObjectsSafe(origin, a.objs, a.snaps)
    ensures AdaptSafe(origin, a, AdaptOne(a, name, get, patch, kind, sel))
  {
    hide SpecOnly, Rewrite, SpecOf, UniqueNames, SnapshotOnce;
    if name != "" && get && name in a.objs {
      SnapshotOnceGrows(origin, a.objs, a.snaps, name);
      var r := Rewrite(kind, sel, a.objs[name]);
      if r.Ok? {
        RewriteKeepsRest(kind, sel, origin[name], a.objs[name]);
        PutSafe(origin, a.objs, SnapshotOnce(a.snaps, name, a.objs[name]), name, r.value);
      }
      hide ObjectsSafe;
    }
  }

  lemma PutSafe(origin: map<string, Object>, objs: map<string, Object>, snaps: seq<ObjectSnapshot>, name: string,
                obj: Object)
    requires ObjectsSafe(origin, objs, snaps) && name in objs && HasSnapshot(snaps, name) && SpecOnly(origin[name], obj)
    ensures ObjectsSafe(origin, objs[name := obj], snaps)
  {
    hide SpecOnly, SpecOf, UniqueNames;
  }

  lemma {:induction false} AdaptAllSafe(origin: map<string, Object>, a: Adapt, kind: TrafficKind, refs: seq<string>,
                                        n: nat, faults: set<Call>, sel: Selector)
    requires ObjectsSafe(origin, a.objs, a.snaps) && n <= |refs|
    ensures AdaptSafe(origin, a, AdaptAll(a, kind, refs, n, faults, sel))
  {
    hide ObjectsSafe, AdaptOne;
    if n > 0 {
      AdaptAllSafe(origin, a, kind, refs, n - 1, faults, sel);
      AdaptOneSafe(origin, AdaptAll(a, kind, refs, n - 1, faults, sel), refs[n - 1],
                   GetRef(kind, n - 1) !in faults, PatchRef(kind, n - 1) !in faults, kind, sel);
    }
  }

  // ---- the stages of adoption ----

  // What a stage of an adoption pass keeps.
  ghost predicate StageSafe(o: Origin, f: Flow, g: Flow) {
    && Safe(o, g.c, g.snapshot) && Extends(f.snapshot, g.snapshot)
    && g.c.cr == f.c.cr && g.c.nextUid == f.c.nextUid && g.c.name == f.c.name && g.c.namespace == f.c.namespace
  }

  lemma SwapSafe(o: Origin, f: Flow, p: Pass)
    requires Safe(o, f.c, f.snapshot)
    ensures StageSafe(o, f, SwapStage(f, p))
  {
    hide ObjectsSafe;
  }

  lemma TrafficSafe(o: Origin, f: Flow, p: Pass, s: Spec)
    requires Safe(o, f.c, f.snapshot)
    ensures StageSafe(o, f, TrafficStage(f, p, s))
  {
    hide ObjectsSafe, AdaptAll, SelectorFor, DepSafe, SvcSafe;
    if TrafficEnabled(s) {
      var t := s.traffic.value;
      var sel := SelectorFor(f.c, t);
      AdaptAllSafe(o.vs, Adapt(f.c.vs, SnapVS(f.snapshot), true), VirtualService, t.vsRefs, |t.vsRefs|, p.faults, sel);
      AdaptAllSafe(o.dr, Adapt(f.c.dr, SnapDR(f.snapshot), true), DestinationRule, t.drRefs, |t.drRefs|, p.faults, sel);
    }
  }

  lemma ApplySafe(o: Origin, f: Flow, p: Pass, desired: KService)
    requires Safe(o, f.c, f.snapshot)
    ensures StageSafe(o, f, ApplyStage(f, p, desired))
  {
    hide ObjectsSafe, DepSafe, SvcSafe;
  }

  lemma QuiesceSafe(o: Origin, f: Flow, p: Pass)
    requires Safe(o, f.c, f.snapshot) && f.c.dep.Some?
    ensures StageSafe(o, f, QuiesceStage(f, p))
  {
    hide ObjectsSafe, SvcSafe;
  }

  lemma StageChain(o: Origin, f: Flow, g: Flow, h: Flow)
    requires StageSafe(o, f, g) && StageSafe(o, g, h)
    ensures StageSafe(o, f, h)
  {
    hide Safe;
  }

  lemma TrafficKeepsDep(f: Flow, p: Pass, s: Spec)
    ensures TrafficStage(f, p, s).c.dep == f.c.dep && TrafficStage(f, p, s).c.svc == f.c.svc
         && TrafficStage(f, p, s).c.ksvc == f.c.ksvc && TrafficStage(f, p, s).writes == f.writes
  {
    hide AdaptAll;
  }

  lemma AdoptFlowSafe(o: Origin, c: Cluster, a: Adoption, p: Pass)
    requires Safe(o, c, a.status.snapshot)
    ensures StageSafe(o, Flow(c, a.status.snapshot, true, []), AdoptFlow(c, a, p))
  {
    var f0 := Flow(c, a.status.snapshot, true, []);
    hide Safe, Extends;
    assert StageSafe(o, f0, f0) by { ExtendsSame(f0.snapshot); }
    if GetSource !in p.faults && Translates(c, a.spec, p.report.probe) {
      var desired := Translated(c, a.spec, p.report.probe).value;
      var f1 := SwapStage(f0, p);
      SwapSafe(o, f0, p);
      if f1.go {
        var f2 := TrafficStage(f1, p, a.spec);
        TrafficSafe(o, f1, p, a.spec);
        TrafficKeepsDep(f1, p, a.spec);
        StageChain(o, f0, f1, f2);
        hide TrafficStage;
        if f2.go {
          var f3 := ApplyStage(f2, p, desired);
          ApplySafe(o, f2, p, desired);
          StageChain(o, f0, f2, f3);
          if f3.go {
            QuiesceSafe(o, f3, p);
            StageChain(o, f0, f3, QuiesceStage(f3, p));
          }
        }
      }
    }
  }

  lemma ExtendsSame(s: Option<Snapshot>)
    ensures Extends(s, s)
  {
  }

  // ---- status suppression ----

  // Comparing the Service snapshot by presence alone loses nothing, because a
  // snapshot that has been taken is never taken again.
  lemma SuppressionIsLossless(a: Option<Snapshot>, b: Option<Snapshot>)
    requires Extends(a, b) && SnapshotEqual(a, b)
    ensures a == b
  {
  }

  lemma AdoptPassInv(o: Origin, w: World, p: Pass)
    requires Inv(o, w.c) && w.c.cr.Some? && !w.c.cr.value.deleting
    ensures var v := AdoptPass(w, p).c;
      && Inv(o, v) && v.cr.Some? && v.cr.value.uid == w.c.cr.value.uid && !v.cr.value.deleting
      && Extends(w.c.cr.value.status.snapshot, v.cr.value.status.snapshot)
      && v.nextUid == w.c.nextUid && v.cr.value.spec == w.c.cr.value.spec
  {
    var a := w.c.cr.value.(finalizers := BOTH);
    var c := w.c.(cr := Some(a));
    assert Safe(o, c, a.status.snapshot);
    ExtendsSame(a.status.snapshot);
    AdoptFlowSafe(o, c, a, p);
    var f := AdoptFlow(c, a, p);
    var v := PatchStatus(f.c, a.status, Status(f.snapshot, p.report));
    hide AdoptFlow, Extends, ObjectsSafe, DepSafe, SvcSafe, SnapshotEqual;
    if StatusEqual(a.status, Status(f.snapshot, p.report)) {
      SuppressionIsLossless(a.status.snapshot, f.snapshot);
    }
  }

  // ---- release ----

  ghost predicate ReleaseSafe(o: Origin, f: Flow, g: Flow) {
    && Safe(o, g.c, g.snapshot) && g.snapshot == f.snapshot
    && g.c.nextUid == f.c.nextUid && g.c.name == f.c.name && g.c.namespace == f.c.namespace
  }

  lemma CascadeSafe(o: Origin, f: Flow, p: Pass)
    requires Safe(o, f.c, f.snapshot)
    ensures var g := CascadeStage(f, p);
      && ReleaseSafe(o, f, g) && g.c.cr == f.c.cr && g.c.dep == f.c.dep && g.writes == f.writes
      && (g.go ==> g.c.ksvc.None? && !Derived(g.c))
  {
    hide ObjectsSafe, DepSafe;
  }

  // The first n snapshots are back in place.
  ghost predicate UndoneUpTo(objs: map<string, Object>, snaps: seq<ObjectSnapshot>, n: nat) {
    forall i :: 0 <= i < n && i < |snaps| ==> snaps[i].name in objs && SpecOf(objs[snaps[i].name]) == snaps[i].spec
  }

  lemma WithSpecOf(obj: Object, spec: Option<Json>)
    ensures SpecOf(WithSpec(obj, spec)) == spec
    ensures forall other :: WithSpec(WithSpec(obj, spec), other) == WithSpec(obj, other)
    ensures spec == SpecOf(obj) ==> WithSpec(obj, spec) == obj
  {
    assert forall other :: WithSpec(WithSpec(obj, spec), other) == WithSpec(obj, other);
  }

  lemma UndoOneSafe(origin: map<string, Object>, u: Undo, snaps: seq<ObjectSnapshot>, n: nat, get: bool, write: bool)
    requires ObjectsSafe(origin, u.objs, snaps) && n < |snaps|
    requires u.ok ==> UndoneUpTo(u.objs, snaps, n)
    ensures var v := UndoOne(u, snaps[n], get, write);
      ObjectsSafe(origin, v.objs, snaps) && (v.ok ==> UndoneUpTo(v.objs, snaps, n + 1))
  {
    var name := snaps[n].name;
    assert name in origin && name in u.objs;
    WithSpecOf(u.objs[name], snaps[n].spec);
    assert HasSnapshot(snaps, name);
    hide SpecOf, WithSpec;
  }

  lemma {:induction false} UndoAllSafe(origin: map<string, Object>, u: Undo, kind: TrafficKind,
                                       snaps: seq<ObjectSnapshot>, n: nat, faults: set<Call>)
    requires ObjectsSafe(origin, u.objs, snaps) && n <= |snaps|
    ensures var v := UndoAll(u, kind, snaps, n, faults);
      ObjectsSafe(origin, v.objs, snaps) && (v.ok ==> UndoneUpTo(v.objs, snaps, n))
  {
    hide ObjectsSafe, UndoOne;
    if n > 0 {
      UndoAllSafe(origin, u, kind, snaps, n - 1, faults);
      UndoOneSafe(origin, UndoAll(u, kind, snaps, n - 1, faults), snaps, n - 1,
                  GetSnap(kind, n - 1) !in faults, WriteSnap(kind, n - 1) !in faults);
    }
  }

  // Undoing every snapshot gives every object back, whole.
  lemma UndoneIsOrigin(origin: map<string, Object>, objs: map<string, Object>, snaps: seq<ObjectSnapshot>)
    requires ObjectsSafe(origin, objs, snaps) && UndoneUpTo(objs, snaps, |snaps|)
    ensures objs == origin
  {
    forall n | n in objs
      ensures objs[n] == origin[n]
    {
      if HasSnapshot(snaps, n) { WithSpecOf(objs[n], SpecOf(origin[n])); }
    }
  }

  lemma UndoTrafficSafe(o: Origin, f: Flow, p: Pass)
    requires Safe(o, f.c, f.snapshot)
    ensures var g := UndoTrafficStage(f, p);
      && ReleaseSafe(o, f, g)
      && g.c == f.c.(vs := g.c.vs, dr := g.c.dr)
      && (g.go ==> g.c.vs == o.vs && g.c.dr == o.dr)
  {
    var vs, dr := SnapVS(f.snapshot), SnapDR(f.snapshot);
    UndoAllSafe(o.vs, Undo(f.c.vs, true), VirtualService, vs, |vs|, p.faults);
    UndoAllSafe(o.dr, Undo(f.c.dr, true), DestinationRule, dr, |dr|, p.faults);
    hide ObjectsSafe, DepSafe, SvcSafe, UndoAll, UndoneUpTo;
    var v := UndoAll(Undo(f.c.vs, true), VirtualService, vs, |vs|, p.faults);
    var d := UndoAll(Undo(f.c.dr, true), DestinationRule, dr, |dr|, p.faults);
    if v.ok { UndoneIsOrigin(o.vs, v.objs, vs); }
    if d.ok { UndoneIsOrigin(o.dr, d.objs, dr); }
  }

  lemma RebuildSafe(o: Origin, f: Flow, p: Pass)
    requires Safe(o, f.c, f.snapshot) && !Derived(f.c)
    ensures var g := RebuildServiceStage(f, p);
      && ReleaseSafe(o, f, g) && g.c == f.c.(svc := g.c.svc) && !Derived(g.c) && g.writes == f.writes
      && (g.go && f.go ==> (o.svc.Some? ==> g.c.svc.Some?))
  {
    hide ObjectsSafe, DepSafe;
  }

  // The adoption inside a release pass.
  ghost predicate SameAdoption(a: Adoption, c: Cluster) {
    c.cr.Some? && c.cr.value == a.(finalizers := c.cr.value.finalizers)
  }

  lemma ServicePhaseSafe(o: Origin, f: Flow, a: Adoption, p: Pass)
    requires Safe(o, f.c, f.snapshot) && f.go && f.c.cr == Some(a) && a.finalizers == BOTH
    ensures var g := ServicePhase(f, p);
      && ReleaseSafe(o, f, g) && SameAdoption(a, g.c) && g.c.dep == f.c.dep && g.writes == f.writes
      && (if g.go then g.c.cr.value.finalizers == {RestoreSource} && ServiceSideRestored(o, g.c)
          else g.c.cr.value.finalizers == BOTH)
  {
    hide Safe, Derived, CascadeStage, UndoTrafficStage, RebuildServiceStage;
    var f1 := CascadeStage(f, p);
    CascadeSafe(o, f, p);
    if f1.go {
      var f2 := UndoTrafficStage(f1, p);
      UndoTrafficSafe(o, f1, p);
      UndoTrafficWrites(f1, p);
      DerivedOf(f1.c, f2.c);
      if f2.go {
        var f3 := RebuildServiceStage(f2, p);
        RebuildSafe(o, f2, p);
        if f3.go {
          assert BOTH - {RestoreService} == {RestoreSource};
          SafeReader(o, f3.c, DropFinalizerStage(f3, p, RestoreService).c, f3.snapshot);
          DerivedOf(f3.c, DropFinalizerStage(f3, p, RestoreService).c);
        }
      }
    }
  }

  lemma UndoTrafficWrites(f: Flow, p: Pass)
    ensures UndoTrafficStage(f, p).writes == f.writes
  {
    hide UndoAll;
  }

  lemma DerivedOf(c: Cluster, d: Cluster)
    requires c.svc == d.svc
    ensures Derived(c) == Derived(d)
  {
  }

  // Safety does not read the adoption or the KSvc.
  lemma SafeReader(o: Origin, c: Cluster, d: Cluster, s: Option<Snapshot>)
    requires Safe(o, c, s) && d.dep == c.dep && d.svc == c.svc && d.vs == c.vs && d.dr == c.dr
    ensures Safe(o, d, s)
  {
  }

  // With both sides restored the snapshot is no longer needed.
  lemma RestoredNeedsNoSnapshot(o: Origin, c: Cluster, s: Option<Snapshot>)
    requires Safe(o, c, s) && ServiceSideRestored(o, c)
    requires c.dep.Some? ==> o.replicas == Some(Effective(c.dep.value.replicas))
    ensures Safe(o, c, None)
  {
    forall m: map<string, Object>, n | n in m
      ensures SpecOnly(m[n], m[n])
    {
      WithSpecOf(m[n], SpecOf(m[n]));
    }
    hide SpecOnly;
  }

  lemma ReleaseSourceSafe(o: Origin, f: Flow, p: Pass)
    requires Safe(o, f.c, f.snapshot) && f.go && ServiceSideRestored(o, f.c)
    ensures var g := ReleaseSourceStage(f, p);
      && ReleaseSafe(o, f, g) && ServiceSideRestored(o, g.c) && g.c.cr == f.c.cr
      && (g.go && g.c.dep.Some? ==> o.replicas == Some(Effective(g.c.dep.value.replicas)))
  {
    hide ObjectsSafe, SvcSafe;
  }

  lemma SourcePhaseSafe(o: Origin, f: Flow, a: Adoption, p: Pass)
    requires Safe(o, f.c, f.snapshot) && f.go && ServiceSideRestored(o, f.c)
    requires SameAdoption(a, f.c) && f.c.cr.value.finalizers == {RestoreSource}
    ensures var g := SourcePhase(f, p);
      && ReleaseSafe(o, f, g) && ServiceSideRestored(o, g.c)
      && (g.c.cr == f.c.cr || (g.c.cr == None && Safe(o, g.c, None)))
      && (g.go ==> g.c.cr == None)
  {
    var f1 := ReleaseSourceStage(f, p);
    ReleaseSourceSafe(o, f, p);
    if f1.go {
      var g := DropFinalizerStage(f1, p, RestoreSource);
      assert {RestoreSource} - {RestoreSource} == {};
      RestoredNeedsNoSnapshot(o, f1.c, f1.snapshot);
      SafeReader(o, f1.c, g.c, f1.snapshot);
      SafeReader(o, f1.c, g.c, None);
    }
    hide Safe, ReleaseSourceStage;
  }

  lemma ReleaseFlowSafe(o: Origin, c: Cluster, a: Adoption, p: Pass)
    requires Inv(o, c) && c.cr == Some(a) && a.deleting
    ensures var g := ReleaseFlow(c, a, p);
      && g.snapshot == a.status.snapshot && g.c.nextUid == c.nextUid
      && (if g.c.cr.None? then Safe(o, g.c, None) && ServiceSideRestored(o, g.c)
          else SameAdoption(a, g.c) && Safe(o, g.c, a.status.snapshot)
               && (g.c.cr.value.finalizers == BOTH
                   || (g.c.cr.value.finalizers == {RestoreSource} && ServiceSideRestored(o, g.c))))
  {
    var f0 := Flow(c, a.status.snapshot, true, []);
    hide Safe;
    if a.finalizers == BOTH {
      ServicePhaseSafe(o, f0, a, p);
    }
    var f1 := if RestoreService in a.finalizers then ServicePhase(f0, p) else f0;
    hide ServicePhase, SourcePhase;
    if f1.go {
      SourcePhaseSafe(o, f1, a, p);
    }
  }

  lemma ReleasePassInv(o: Origin, w: World, p: Pass)
    requires Inv(o, w.c) && w.c.cr.Some? && w.c.cr.value.deleting
    ensures var v := ReleasePass(w, p).c;
      && Inv(o, v) && v.nextUid == w.c.nextUid
      && (v.cr.Some? ==>
            && v.cr.value.uid == w.c.cr.value.uid && v.cr.value.deleting
            && v.cr.value.watcherOwned == w.c.cr.value.watcherOwned
            && v.cr.value.status.snapshot == w.c.cr.value.status.snapshot)
  {
    var a := w.c.cr.value;
    ReleaseFlowSafe(o, w.c, a, p);
    var g := ReleaseFlow(w.c, a, p);
    SafeReader(o, g.c, PatchStatus(g.c, a.status, Status(g.snapshot, p.report)),
               if g.c.cr.None? then None else a.status.snapshot);
    hide Safe, ReleaseFlow, StatusEqual, Typed;
  }

  // ---- everybody else ----

  lemma DeleteInv(o: Origin, c: Cluster)
    requires Inv(o, c)
    ensures Inv(o, DeleteAdoption(c))
  {
    hide ObjectsSafe, DepSafe;
  }

  lemma CreateInv(o: Origin, c: Cluster, watcherOwned: bool, spec: Spec)
    requires Inv(o, c) && c.cr.None?
    ensures Inv(o, CreateAdoption(c, watcherOwned, spec))
  {
    SafeReader(o, c, CreateAdoption(c, watcherOwned, spec), None);
    hide Safe;
  }

  lemma RespecInv(o: Origin, c: Cluster, spec: Spec)
    requires Inv(o, c) && c.cr.Some?
    ensures Inv(o, c.(cr := Some(c.cr.value.(spec := spec))))
  {
    SafeReader(o, c, c.(cr := Some(c.cr.value.(spec := spec))), c.cr.value.status.snapshot);
    hide Safe;
  }

  lemma KnativeInv(o: Origin, c: Cluster, s: Step)
    requires Inv(o, c)
    requires (s.KnativeDerives? || s.KnativeDropsDerived? || s.KnativeReports? || s.KSvcDeleted? || s.KSvcRemoved?)
    ensures Inv(o, Others(c, s))
  {
    hide ObjectsSafe, DepSafe;
  }

  lemma LabelInv(o: Origin, c: Cluster, s: Step)
    requires Inv(o, c) && s.UserLabels?
    ensures Inv(o, Others(c, s))
  {
    hide ObjectsSafe, SvcSafe;
  }

  lemma OthersInv(o: Origin, c: Cluster, s: Step)
    requires Inv(o, c)
    ensures Inv(o, Others(c, s))
  {
    match s
    case ReconcileStep(_) =>
    case WatchStep(spec) =>
      DeleteInv(o, c);
      if c.cr.None? { CreateInv(o, c, true, spec); } else { RespecInv(o, c, spec); }
    case UserCreates(spec) => if c.cr.None? { CreateInv(o, c, false, spec); }
    case UserEdits(spec) => if c.cr.Some? { RespecInv(o, c, spec); }
    case UserDeletes => DeleteInv(o, c);
    case UserLabels(_) => LabelInv(o, c, s);
    case _ => KnativeInv(o, c, s);
    hide Inv, DeleteAdoption, CreateAdoption;
  }

  lemma StepInv(o: Origin, w: World, s: Step)
    requires Inv(o, w.c)
    ensures Inv(o, Apply(w, s).c)
  {
    if s.ReconcileStep? && w.c.cr.Some? {
      if w.c.cr.value.deleting { ReleasePassInv(o, w, s.p); } else { AdoptPassInv(o, w, s.p); }
    } else {
      OthersInv(o, w.c, s);
    }
    hide Inv, AdoptPass, ReleasePass, Others;
  }

  lemma {:induction false} RunInv(o: Origin, w: World, steps: seq<Step>)
    requires Inv(o, w.c)
    ensures Inv(o, Run(w, steps).c)
    decreases |steps|
  {
    hide Inv, Apply;
    if steps != [] {
      StepInv(o, w, steps[0]);
      RunInv(o, Apply(w, steps[0]), steps[1..]);
    }
  }
}
