// The reconciler and the Deployment watcher as they act on API objects, call by
// call. Every method is proved to do what its stage of the protocol says.
module Reconciler {
  import opened Basics
  import opened Json
  import opened Traffic
  import opened TrafficTheorems
  import opened TrafficAdapter
  import opened Translator
  import opened Protocol
  import opened ProtocolInvariants
  import opened ProtocolTheorems

  // The API server's objects of one workload.
  class ApiServer {
    const name: string
    const namespace: string
    var dep: Option<Deployment>
    var svc: Option<Service>
    var ksvc: Option<KSvc>
    var vs: map<string, Object>
    var dr: map<string, Object>
    var cr: Option<Adoption>
    var nextUid: nat

    // The workload before any adoption, and the writes of replicas so far.
    ghost const origin: Origin
    ghost var log: seq<Write>

    ghost function View(): Cluster
      reads this
    {
      Cluster(name, namespace, dep, svc, ksvc, vs, dr, cr, nextUid)
    }

    ghost function State(): World
      reads this
    {
      World(View(), log)
    }

    ghost predicate Valid()
      reads this
    {
      Inv(origin, View())
    }

    constructor (c: Cluster)
      requires Initial(c)
      ensures Valid() && State() == World(c, []) && origin == OriginOf(c)
    {
      name, namespace, dep, svc, ksvc := c.name, c.namespace, c.dep, c.svc, c.ksvc;
      vs, dr, cr, nextUid := c.vs, c.dr, c.cr, c.nextUid;
      origin, log := OriginOf(c), [];
      new;
      InitialInv(c);
      hide Inv;
    }
  }

  // The copy of the adoption that one pass works on.
  class KnativeAdoption {
    const stored: Adoption
    var finalizers: set<Finalizer>
    var snapshot: Option<Snapshot>
    ghost var writes: seq<Write>

    constructor (a: Adoption)
      ensures stored == a && finalizers == a.finalizers && snapshot == a.status.snapshot && writes == []
    {
      stored, finalizers, snapshot, writes := a, a.finalizers, a.status.snapshot, [];
    }
  }

  // ---- snapshot bookkeeping ----

  method HasTrafficObjectSnapshot(items: seq<ObjectSnapshot>, name: string) returns (found: bool)
    ensures found <==> HasSnapshot(items, name)
  {
    for i := 0 to |items|
      invariant forall k :: 0 <= k < i ==> items[k].name != name
    {
      if items[i].name == name { return true; }
    }
    return false;
  }

  method SnapshotIfNew(items: seq<ObjectSnapshot>, name: string, obj: Object) returns (r: seq<ObjectSnapshot>)
    ensures r == SnapshotOnce(items, name, obj)
  {
    var found := HasTrafficObjectSnapshot(items, name);
    r := if found then items else items + [ObjectSnapshot(name, SpecOf(obj))];
  }

  lemma WithTrafficAgain(s: Option<Snapshot>, vs: seq<ObjectSnapshot>, dr: seq<ObjectSnapshot>)
    ensures WithTraffic(s, SnapVS(s), SnapDR(s)) == s
    ensures SnapVS(s) <= vs && SnapDR(s) <= dr ==>
      SnapVS(WithTraffic(s, vs, dr)) == vs && SnapDR(WithTraffic(s, vs, dr)) == dr
  {
  }

  lemma WithTrafficChain(s: Option<Snapshot>, vs: seq<ObjectSnapshot>, dr: seq<ObjectSnapshot>,
                         vs': seq<ObjectSnapshot>, dr': seq<ObjectSnapshot>)
    requires vs <= vs' && dr <= dr'
    ensures WithTraffic(WithTraffic(s, vs, dr), vs', dr') == WithTraffic(s, vs', dr')
  {
  }

  // A failed reference stays failed.
  lemma AdaptOneSticky(a: Adapt, name: string, get: bool, patch: bool, kind: TrafficKind, sel: Selector)
    ensures var good := AdaptOne(a.(ok := true), name, get, patch, kind, sel);
      var bad := AdaptOne(a.(ok := false), name, get, patch, kind, sel);
      bad == good.(ok := false) && a.snaps <= good.snaps
  {
    hide Rewrite;
  }

  // ---- release of one traffic object ----

  method RestoreTrafficObjectSnapshot(objs: map<string, Object>, item: ObjectSnapshot, get: bool, write: bool)
    returns (r: map<string, Object>, ok: bool)
    ensures Undo(r, ok) == UndoOne(Undo(objs, true), item, get, write)
    ensures !ok ==> r == objs
    ensures forall n :: n != item.name ==> (n in r <==> n in objs) && (n in r ==> r[n] == objs[n])
    ensures ok && item.name != "" ==>
      && item.name in r
      && (if item.spec.None? then "spec" !in r[item.name]
          else "spec" in r[item.name] && r[item.name]["spec"] == item.spec.value)
      && r[item.name] - {"spec"} == if item.name in objs then objs[item.name] - {"spec"} else map[]
  {
    r, ok := objs, true;
    if item.name == "" {
      return;
    }
    if !Decodes(item.spec) || !get {
      return r, false;
    }
    if item.name !in objs {
      if !write { return r, false; }
      r := objs[item.name := WithSpec(map[], item.spec)];
      return;
    }
    if SpecOf(objs[item.name]) == item.spec {
      return;
    }
    if !write { return r, false; }
    r := objs[item.name := WithSpec(objs[item.name], item.spec)];
  }

  // The list in order, up to the first failure.
  method RestoreTrafficSnapshotList(objs: map<string, Object>, kind: TrafficKind, items: seq<ObjectSnapshot>, p: Pass)
    returns (r: map<string, Object>, ok: bool)
    ensures Undo(r, ok) == UndoAll(Undo(objs, true), kind, items, |items|, p.faults)
  {
    hide UndoOne;
    r, ok := objs, true;
    for i := 0 to |items|
      invariant Undo(r, ok) == UndoAll(Undo(objs, true), kind, items, i, p.faults) && ok
    {
      r, ok := RestoreTrafficObjectSnapshot(r, items[i],
                                            GetSnap(kind, i) !in p.faults, WriteSnap(kind, i) !in p.faults);
      if !ok {
        UndoAllStops(Undo(objs, true), kind, items, i + 1, |items|, p.faults);
        return;
      }
    }
  }

  // The first failure ends the list.
  lemma {:induction false} UndoAllStops(u: Undo, kind: TrafficKind, snaps: seq<ObjectSnapshot>, m: nat, n: nat,
                                        faults: set<Call>)
    requires m <= n <= |snaps| && !UndoAll(u, kind, snaps, m, faults).ok
    ensures UndoAll(u, kind, snaps, n, faults) == UndoAll(u, kind, snaps, m, faults)
    decreases n
  {
    if m < n { UndoAllStops(u, kind, snaps, m, n - 1, faults); }
  }

  class KnativeAdoptionReconciler {
    const api: ApiServer

    constructor (api: ApiServer)
      ensures this.api == api
    {
      this.api := api;
    }

    // The pass as a protocol flow.
    ghost function At(a: KnativeAdoption, go: bool): Flow
      reads api, a
    {
      Flow(api.View(), a.snapshot, go, a.writes)
    }

    // ---- finalizers ----

    method EnsureFinalizers(a: KnativeAdoption, p: Pass) returns (ok: bool)
      requires api.cr == Some(a.stored) && a.finalizers == a.stored.finalizers
      modifies api`cr, a`finalizers
      ensures a.finalizers == BOTH
      ensures ok <==> old(a.finalizers) == BOTH || PatchFinalizers !in p.faults
      ensures api.cr == Some(if ok then a.stored.(finalizers := BOTH) else a.stored)
    {
      ok := true;
      var added := a.finalizers != BOTH;
      a.finalizers := a.finalizers + {RestoreService} + {RestoreSource};
      assert a.finalizers == BOTH by { AllFinalizers(a.finalizers); }
      if added {
        if PatchFinalizers in p.faults { return false; }
        api.cr := Some(a.stored.(finalizers := a.finalizers));
      }
    }

    // The API server deletes a terminating adoption with its last finalizer.
    method RemoveFinalizer(a: KnativeAdoption, fin: Finalizer, p: Pass) returns (ok: bool)
      requires api.cr.Some? && api.cr.value.finalizers == a.finalizers
      modifies api`cr, a`finalizers
      ensures a.finalizers == old(a.finalizers) - {fin}
      ensures fin !in old(a.finalizers) ==> ok && api.cr == old(api.cr)
      ensures fin in old(a.finalizers) ==> At(a, ok) == DropFinalizerStage(old(At(a, true)), p, fin)
    {
      ok := true;
      if fin !in a.finalizers {
        assert a.finalizers - {fin} == a.finalizers;
        return;
      }
      a.finalizers := a.finalizers - {fin};
      if DropFinalizer(fin) in p.faults { return false; }
      api.cr := if a.finalizers == {} then None else Some(api.cr.value.(finalizers := a.finalizers));
    }

    // ---- adoption ----

    method SnapshotAndDeleteService(a: KnativeAdoption, svc: Service, p: Pass) returns (ok: bool)
      requires api.svc == Some(svc) && Classify(api.svc) == SwapTakenOver && GetService !in p.faults
      modifies api`svc, a`snapshot
      ensures At(a, false) == SwapStage(old(At(a, true)), p)
    {
      ok := true;
      if a.snapshot.None? {
        a.snapshot := Some(EMPTY_SNAPSHOT);
      }
      if a.snapshot.value.service.None? {
        a.snapshot := Some(a.snapshot.value.(service := Some(svc.spec.(clusterIP := "", clusterIPs := []))));
      }
      if DeleteService in p.faults { return false; }
      api.svc := None;
    }

    method SwapService(a: KnativeAdoption, p: Pass) returns (ok: bool)
      modifies api`svc, a`snapshot
      ensures At(a, ok) == SwapStage(old(At(a, true)), p)
    {
      if GetService in p.faults { return false; }
      match Classify(api.svc) {
        case SwapPass => ok := true;
        case SwapRefused => ok := false;
        case SwapTakenOver =>
          var _ := SnapshotAndDeleteService(a, api.svc.value, p);
          ok := false;
      }
    }

    method ReconcileVirtualService(a: KnativeAdoption, name: string, t: TrafficSpec, port: Option<int32>, get: bool,
                                   patch: bool)
      returns (ok: bool)
      requires name != ""
      modifies api`vs, a`snapshot
      ensures Adapt(api.vs, SnapVS(a.snapshot), ok)
           == AdaptOne(old(Adapt(api.vs, SnapVS(a.snapshot), true)), name, get, patch, VirtualService,
                       SelectorOf(api.name, api.namespace, t.servicePort, port))
      ensures SnapVS(old(a.snapshot)) <= SnapVS(a.snapshot)
      ensures a.snapshot == WithTraffic(old(a.snapshot), SnapVS(a.snapshot), SnapDR(old(a.snapshot)))
    {
      hide RewriteVirtualService;
      WithTrafficAgain(a.snapshot, SnapVS(a.snapshot), SnapDR(a.snapshot));
      if !get || name !in api.vs { return false; }
      var snaps := SnapshotIfNew(SnapVS(a.snapshot), name, api.vs[name]);
      WithTrafficAgain(a.snapshot, snaps, SnapDR(a.snapshot));
      a.snapshot := WithTraffic(a.snapshot, snaps, SnapDR(a.snapshot));
      var vs := new Unstructured(api.vs[name]);
      var changed, failed := StripSubsetFromTargetDestinations(vs, api.name, api.namespace, t.servicePort, port);
      if failed { return false; }
      ok := true;
      if changed {
        if !patch { return false; }
        api.vs := api.vs[name := vs.fields];
      }
    }

    method ReconcileDestinationRule(a: KnativeAdoption, name: string, get: bool, patch: bool, ghost sel: Selector)
      returns (ok: bool)
      requires name != "" && sel.service == api.name && sel.namespace == api.namespace
      modifies api`dr, a`snapshot
      ensures Adapt(api.dr, SnapDR(a.snapshot), ok)
           == AdaptOne(old(Adapt(api.dr, SnapDR(a.snapshot), true)), name, get, patch, DestinationRule, sel)
      ensures SnapDR(old(a.snapshot)) <= SnapDR(a.snapshot)
      ensures a.snapshot == WithTraffic(old(a.snapshot), SnapVS(old(a.snapshot)), SnapDR(a.snapshot))
    {
      hide RewriteDestinationRule;
      WithTrafficAgain(a.snapshot, SnapVS(a.snapshot), SnapDR(a.snapshot));
      if !get || name !in api.dr { return false; }
      var snaps := SnapshotIfNew(SnapDR(a.snapshot), name, api.dr[name]);
      WithTrafficAgain(a.snapshot, SnapVS(a.snapshot), snaps);
      a.snapshot := WithTraffic(a.snapshot, SnapVS(a.snapshot), snaps);
      var dr := new Unstructured(api.dr[name]);
      var changed, failed := StripTargetServiceSubsets(dr, api.name, api.namespace);
      if failed { return false; }
      ok := true;
      if changed {
        if !patch { return false; }
        api.dr := api.dr[name := dr.fields];
      }
    }

    // All declared references, in order; a failure does not stop the loop.
    method ReconcileVirtualServices(a: KnativeAdoption, t: TrafficSpec, port: Option<int32>, p: Pass) returns (ok: bool)
      modifies api`vs, a`snapshot
      ensures Adapt(api.vs, SnapVS(a.snapshot), ok)
           == AdaptAll(old(Adapt(api.vs, SnapVS(a.snapshot), true)), VirtualService, t.vsRefs, |t.vsRefs|, p.faults,
                       SelectorOf(api.name, api.namespace, t.servicePort, port))
      ensures SnapVS(old(a.snapshot)) <= SnapVS(a.snapshot)
      ensures a.snapshot == WithTraffic(old(a.snapshot), SnapVS(a.snapshot), SnapDR(old(a.snapshot)))
    {
      hide AdaptOne, WithTraffic;
      ghost var sel := SelectorOf(api.name, api.namespace, t.servicePort, port);
      ghost var start := Adapt(api.vs, SnapVS(a.snapshot), true);
      WithTrafficAgain(a.snapshot, SnapVS(a.snapshot), SnapDR(a.snapshot));
      ok := true;
      for i := 0 to |t.vsRefs|
        invariant Adapt(api.vs, SnapVS(a.snapshot), ok) == AdaptAll(start, VirtualService, t.vsRefs, i, p.faults, sel)
        invariant SnapVS(old(a.snapshot)) <= SnapVS(a.snapshot)
        invariant a.snapshot == WithTraffic(old(a.snapshot), SnapVS(a.snapshot), SnapDR(old(a.snapshot)))
      {
        var name := t.vsRefs[i];
        ghost var before := a.snapshot;
        var get, patch := GetRef(VirtualService, i) !in p.faults, PatchRef(VirtualService, i) !in p.faults;
        AdaptOneSticky(Adapt(api.vs, SnapVS(a.snapshot), ok), name, get, patch, VirtualService, sel);
        if name == "" {
          NoName(Adapt(api.vs, SnapVS(a.snapshot), ok), get, patch, VirtualService, sel);
          ok := false;
        } else {
          var good := ReconcileVirtualService(a, name, t, port, get, patch);
          WithTrafficAgain(old(a.snapshot), SnapVS(before), SnapDR(old(a.snapshot)));
          WithTrafficChain(old(a.snapshot), SnapVS(before), SnapDR(old(a.snapshot)), SnapVS(a.snapshot),
                           SnapDR(old(a.snapshot)));
          ok := ok && good;
        }
      }
    }

    method ReconcileDestinationRules(a: KnativeAdoption, t: TrafficSpec, p: Pass, ghost sel: Selector)
      returns (ok: bool)
      requires sel.service == api.name && sel.namespace == api.namespace
      modifies api`dr, a`snapshot
      ensures Adapt(api.dr, SnapDR(a.snapshot), ok)
           == AdaptAll(old(Adapt(api.dr, SnapDR(a.snapshot), true)),
                       DestinationRule, t.drRefs, |t.drRefs|, p.faults, sel)
      ensures SnapDR(old(a.snapshot)) <= SnapDR(a.snapshot)
      ensures a.snapshot == WithTraffic(old(a.snapshot), SnapVS(old(a.snapshot)), SnapDR(a.snapshot))
    {
      hide AdaptOne, WithTraffic;
      ghost var start := Adapt(api.dr, SnapDR(a.snapshot), true);
      WithTrafficAgain(a.snapshot, SnapVS(a.snapshot), SnapDR(a.snapshot));
      ok := true;
      for i := 0 to |t.drRefs|
        invariant Adapt(api.dr, SnapDR(a.snapshot), ok) == AdaptAll(start, DestinationRule, t.drRefs, i, p.faults, sel)
        invariant SnapDR(old(a.snapshot)) <= SnapDR(a.snapshot)
        invariant a.snapshot == WithTraffic(old(a.snapshot), SnapVS(old(a.snapshot)), SnapDR(a.snapshot))
      {
        var name := t.drRefs[i];
        ghost var before := a.snapshot;
        var get, patch := GetRef(DestinationRule, i) !in p.faults, PatchRef(DestinationRule, i) !in p.faults;
        AdaptOneSticky(Adapt(api.dr, SnapDR(a.snapshot), ok), name, get, patch, DestinationRule, sel);
        if name == "" {
          NoName(Adapt(api.dr, SnapDR(a.snapshot), ok), get, patch, DestinationRule, sel);
          ok := false;
        } else {
          var good := ReconcileDestinationRule(a, name, get, patch, sel);
          WithTrafficAgain(old(a.snapshot), SnapVS(old(a.snapshot)), SnapDR(before));
          WithTrafficChain(old(a.snapshot), SnapVS(old(a.snapshot)), SnapDR(before), SnapVS(old(a.snapshot)),
                           SnapDR(a.snapshot));
          ok := ok && good;
        }
      }
    }

    method ReconcileTraffic(a: KnativeAdoption, p: Pass) returns (ok: bool)
      modifies api`vs, api`dr, a`snapshot
      ensures At(a, ok) == TrafficStage(old(At(a, true)), p, a.stored.spec)
    {
      if !TrafficEnabled(a.stored.spec) { return true; }
      var t := a.stored.spec.traffic.value;
      if !Inplace(t) || GetPort in p.faults { return false; }
      var port := t.servicePort;
      if api.svc.Some? && |api.svc.value.spec.ports| > 0 && api.svc.value.spec.ports[0] > 0 {
        port := Some(api.svc.value.spec.ports[0]);
      }
      hide AdaptAll, WithTraffic;
      var vsOk := ReconcileVirtualServices(a, t, port, p);
      ghost var mid := a.snapshot;
      WithTrafficAgain(old(a.snapshot), SnapVS(mid), SnapDR(old(a.snapshot)));
      var drOk := ReconcileDestinationRules(a, t, p, SelectorFor(old(api.View()), t));
      WithTrafficAgain(mid, SnapVS(mid), SnapDR(a.snapshot));
      WithTrafficChain(old(a.snapshot), SnapVS(mid), SnapDR(mid), SnapVS(mid), SnapDR(a.snapshot));
      ok := vsOk && drOk;
    }

    // Apply the KSvc and read it back.
    method ApplyKnativeService(a: KnativeAdoption, desired: KService, p: Pass) returns (ok: bool)
      modifies api`ksvc
      ensures At(a, ok) == ApplyStage(old(At(a, true)), p, desired)
    {
      if ApplyKSvc in p.faults { return false; }
      if api.ksvc.None? {
        api.ksvc := Some(KSvc(false, false, None));
      }
      api.ksvc := Some(api.ksvc.value.(applied := Some(desired)));
      if ReadBack in p.faults { return false; }
      api.ksvc := Some(api.ksvc.value.(ready := p.ready));
      ok := p.ready;
    }

    method QuiesceSource(a: KnativeAdoption, dep: Deployment, p: Pass) returns (ok: bool)
      requires api.dep == Some(dep)
      modifies api`dep, a`snapshot, a`writes
      ensures At(a, ok) == QuiesceStage(old(At(a, true)), p)
      ensures ok ==> api.dep.Some? && api.dep.value.replicas == Some(0)
      ensures !ok ==> api.dep == old(api.dep)
      ensures dep.replicas != Some(0) ==>
        SnapReplicas(a.snapshot) == if SnapReplicas(old(a.snapshot)).Some? then SnapReplicas(old(a.snapshot))
                                    else if dep.replicas.Some? then dep.replicas else Some(1)
    {
      var current: int32 := 1;
      if dep.replicas.Some? {
        current := dep.replicas.value;
      }
      if current == 0 { return true; }
      if a.snapshot.None? || a.snapshot.value.replicas.None? {
        if a.snapshot.None? {
          a.snapshot := Some(EMPTY_SNAPSHOT);
        }
        a.snapshot := Some(a.snapshot.value.(replicas := Some(current)));
      }
      if ScaleToZero in p.faults { return false; }
      a.writes := a.writes + [Quiesced(api.View(), a.snapshot, p.report.probe)];
      api.dep := Some(dep.(replicas := Some(0)));
      ok := true;
    }

    method ReconcileAdoption(a: KnativeAdoption, p: Pass) returns (ok: bool)
      requires a.snapshot == a.stored.status.snapshot && a.writes == []
      modifies api`dep, api`svc, api`ksvc, api`vs, api`dr, a`snapshot, a`writes
      ensures At(a, ok) == AdoptFlow(old(api.View()), a.stored, p)
    {
      hide SwapStage, TrafficStage, ApplyStage, QuiesceStage, Translation;
      if GetSource in p.faults || api.dep.None? { return false; }
      var dep := api.dep.value;
      var s := a.stored.spec;
      var r := Translate(Workload(api.name, api.namespace, dep.template),
        AdoptionKnobs(api.name, s.primaryContainer, s.minScale, s.maxScale, s.targetConcurrency, p.report.probe));
      if r.Err? { return false; }
      ghost var f0 := At(a, true);
      ok := SwapService(a, p);
      if !ok { return; }
      ghost var f1 := At(a, true);
      ok := ReconcileTraffic(a, p);
      if !ok { return; }
      ghost var f2 := At(a, true);
      ok := ApplyKnativeService(a, r.value, p);
      if !ok { return; }
      ok := QuiesceSource(a, dep, p);
    }

    // ---- release ----

    // The delete request; the cascade may already be through when it returns.
    method DeleteKSvcIfPresent(p: Pass) returns (ok: bool)
      modifies api`ksvc
      ensures ok <==> DeleteKSvc !in p.faults
      ensures api.ksvc == if !ok then old(api.ksvc) else if old(api.ksvc).None? || p.ksvcGone then None
                          else Some(old(api.ksvc).value.(terminating := true))
    {
      if DeleteKSvc in p.faults { return false; }
      if api.ksvc.Some? {
        api.ksvc := if p.ksvcGone then None else Some(api.ksvc.value.(terminating := true));
      }
      ok := true;
    }

    method AwaitCascade(a: KnativeAdoption, p: Pass) returns (ok: bool)
      modifies api`ksvc, api`svc
      ensures At(a, ok) == CascadeStage(old(At(a, true)), p)
    {
      ok := DeleteKSvcIfPresent(p);
      if !ok { return; }
      if GetKSvc in p.faults || api.ksvc.Some? { return false; }
      if p.derivedGone && api.svc.Some? && KnativeOwned(api.svc.value) {
        api.svc := None;
      }
      ok := GetDerived !in p.faults && !(api.svc.Some? && KnativeOwned(api.svc.value));
    }

    method RestoreTrafficSnapshots(a: KnativeAdoption, p: Pass) returns (ok: bool)
      modifies api`vs, api`dr
      ensures At(a, ok) == UndoTrafficStage(old(At(a, true)), p)
      ensures var vs := SnapVS(a.snapshot);
        !UndoAll(Undo(old(api.vs), true), VirtualService, vs, |vs|, p.faults).ok ==> !ok && api.dr == old(api.dr)
    {
      if a.snapshot.None? || a.snapshot.value.traffic.None? { return true; }
      var traffic := a.snapshot.value.traffic.value;
      hide UndoAll;
      api.vs, ok := RestoreTrafficSnapshotList(api.vs, VirtualService, traffic.vs, p);
      if !ok { return; }
      api.dr, ok := RestoreTrafficSnapshotList(api.dr, DestinationRule, traffic.dr, p);
    }

    method RebuildSnapshotService(a: KnativeAdoption, p: Pass) returns (ok: bool)
      modifies api`svc
      ensures At(a, ok) == RebuildServiceStage(old(At(a, true)), p)
    {
      if a.snapshot.None? || a.snapshot.value.service.None? { return true; }
      if CreateService in p.faults { return false; }
      ok := true;
      if api.svc.None? {
        var spec := a.snapshot.value.service.value.(clusterIP := p.clusterIP, clusterIPs := p.clusterIPs);
        api.svc := Some(Service(spec, true, None));
      }
    }

    method RestoreDeploymentSpec(a: KnativeAdoption, p: Pass) returns (ok: bool)
      modifies api`dep, a`writes
      ensures At(a, ok) == ReleaseSourceStage(old(At(a, true)), p)
    {
      if a.snapshot.None? || a.snapshot.value.replicas.None? { return true; }
      if GetRelease in p.faults { return false; }
      if api.dep.None? { return true; }
      var dep, target := api.dep.value, a.snapshot.value.replicas.value;
      if dep.replicas == Some(target) && dep.trigger.None? { return true; }
      if PatchRelease in p.faults { return false; }
      a.writes := a.writes + [Released(api.View())];
      api.dep := Some(dep.(replicas := Some(target), trigger := None));
      ok := true;
    }

    method HandleDeletion(a: KnativeAdoption, p: Pass) returns (ok: bool)
      requires api.cr == Some(a.stored) && a.finalizers == a.stored.finalizers
      requires a.snapshot == a.stored.status.snapshot && a.writes == []
      modifies api`dep, api`svc, api`ksvc, api`vs, api`dr, api`cr, a`finalizers, a`writes
      ensures At(a, ok) == ReleaseFlow(old(api.View()), a.stored, p)
    {
      hide CascadeStage, UndoTrafficStage, RebuildServiceStage, ReleaseSourceStage;
      if RestoreService in a.finalizers {
        ok := AwaitCascade(a, p);
        if !ok { return; }
        ok := RestoreTrafficSnapshots(a, p);
        if !ok { return; }
        ok := RebuildSnapshotService(a, p);
        if !ok { return; }
        ok := RemoveFinalizer(a, RestoreService, p);
        if !ok { return; }
      }
      ok := true;
      if RestoreSource in a.finalizers {
        ok := RestoreDeploymentSpec(a, p);
        if !ok { return; }
        ok := RemoveFinalizer(a, RestoreSource, p);
      }
    }

    // ---- one pass ----

    method PatchStatus(original: AdoptionStatus, current: AdoptionStatus)
      modifies api`cr
      ensures api.View() == Protocol.PatchStatus(old(api.View()), original, current)
    {
      if api.cr.None? || StatusEqual(original, current) { return; }
      api.cr := Some(api.cr.value.(status := current));
    }

    // One reconcile pass is one protocol step, and keeps the protocol's invariant.
    method Reconcile(p: Pass)
      requires api.Valid()
      modifies api
      ensures api.State() == Apply(old(api.State()), ReconcileStep(p)) && api.Valid()
    {
      StepInv(api.origin, api.State(), ReconcileStep(p));
      hide Inv, AdoptFlow, ReleaseFlow, Protocol.PatchStatus;
      if api.cr.None? { return; }
      var a := new KnativeAdoption(api.cr.value);
      if a.stored.deleting {
        var _ := HandleDeletion(a, p);
        PatchStatus(a.stored.status, Status(a.snapshot, p.report));
        api.log := api.log + a.writes;
        return;
      }
      var ok := EnsureFinalizers(a, p);
      if !ok { return; }
      var b := new KnativeAdoption(api.cr.value);
      var _ := ReconcileAdoption(b, p);
      PatchStatus(b.stored.status, Status(b.snapshot, p.report));
      api.log := api.log + b.writes;
    }
  }

  lemma NoName(a: Adapt, get: bool, patch: bool, kind: TrafficKind, sel: Selector)
    ensures AdaptOne(a, "", get, patch, kind, sel) == a.(ok := false)
  {
  }

  lemma AllFinalizers(s: set<Finalizer>)
    requires RestoreService in s && RestoreSource in s
    ensures s == BOTH
  {
    forall f: Finalizer ensures f in s <==> f in BOTH { if f == RestoreService {} }
  }

  // ---- the watcher ----

  datatype WatchCall = GetDeployment | GetAdoption | DeleteCall | ApplyCall

  class DeploymentWatcher {
    const api: ApiServer

    constructor (api: ApiServer)
      ensures this.api == api
    {
      this.api := api;
    }

    method DeleteIfWatcherOwned(faults: set<WatchCall>) returns (ok: bool)
      modifies api`cr
      ensures faults == {} ==> ok
      ensures api.cr == if ok && old(api.cr).Some? && old(api.cr).value.watcherOwned
                        then DeleteAdoption(old(api.View())).cr
                        else old(api.cr)
    {
      if GetAdoption in faults { return false; }
      ok := true;
      if api.cr.None? || !api.cr.value.watcherOwned { return; }
      if DeleteCall in faults { return false; }
      api.cr := if api.cr.value.finalizers == {} then None else Some(api.cr.value.(deleting := true));
    }

    // Server-side apply: creates a missing adoption, updates a watcher-owned one.
    method ApplyAdoption(spec: Spec, faults: set<WatchCall>) returns (ok: bool)
      requires Labelled(api.View())
      modifies api`cr, api`nextUid
      ensures faults == {} ==> ok
      ensures api.View() == if ok then Watch(old(api.View()), spec) else old(api.View())
    {
      if GetAdoption in faults { return false; }
      ok := true;
      if api.cr.Some? && !api.cr.value.watcherOwned { return; }
      if ApplyCall in faults { return false; }
      if api.cr.None? {
        api.cr := Some(Adoption(api.nextUid, true, spec, {}, false, EMPTY_STATUS));
        api.nextUid := api.nextUid + 1;
      } else {
        api.cr := Some(api.cr.value.(spec := spec));
      }
    }

    // A pass is one protocol step, or nothing when one of its calls fails.
    method Reconcile(spec: Spec, faults: set<WatchCall>) returns (ok: bool)
      requires api.Valid()
      modifies api`cr, api`nextUid
      ensures api.Valid() && (faults == {} ==> ok)
      ensures api.State() == if ok then Apply(old(api.State()), WatchStep(spec)) else old(api.State())
    {
      StepInv(api.origin, api.State(), WatchStep(spec));
      hide Inv;
      if GetDeployment in faults { return false; }
      if api.dep.None? || api.dep.value.trigger != Some(LABEL_ENABLED) {
        ok := DeleteIfWatcherOwned(faults);
      } else {
        ok := ApplyAdoption(spec, faults);
      }
    }
  }
}
