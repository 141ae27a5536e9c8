// The adopt / release protocol over the objects of one workload. One reconcile
// pass, with its final status write, is one step; a pass may stop at any API call.
module Protocol {
  import opened Basics
  import opened Json
  import opened Traffic
  import opened TrafficTheorems
  import opened Translator
  import opened Guard
  import opened Conditions

  // ---- objects ----

  datatype ServiceKind = ClusterIP | NodePort | LoadBalancer | ExternalName

  datatype ServiceSpec = ServiceSpec(
    kind: ServiceKind, clusterIP: string, clusterIPs: seq<string>, ports: seq<int32>, rest: string)
  {
    // What the snapshot keeps: addresses belong to the API server.
    function Strip(): ServiceSpec { this.(clusterIP := "", clusterIPs := []) }
  }

  datatype Owner = Owner(apiVersion: string, kind: string)

  datatype Service = Service(spec: ServiceSpec, managed: bool, owner: Option<Owner>)

  const SERVING := "serving.knative.dev/v1"

  predicate KnativeOwned(s: Service) { s.owner.Some? && s.owner.value.apiVersion == SERVING }

  datatype Deployment = Deployment(replicas: Option<int32>, trigger: Option<string>, template: PodSpec)

  function Effective(replicas: Option<int32>): int32 { if replicas.Some? then replicas.value else 1 }

  // `applied` is what the operator applied last.
  datatype KSvc = KSvc(ready: bool, terminating: bool, applied: Option<KService>)

  datatype Finalizer = RestoreService | RestoreSource

  const BOTH := {RestoreService, RestoreSource}

  datatype ObjectSnapshot = ObjectSnapshot(name: string, spec: Option<Json>)

  datatype TrafficSnapshot = TrafficSnapshot(vs: seq<ObjectSnapshot>, dr: seq<ObjectSnapshot>)

  datatype Snapshot = Snapshot(
    replicas: Option<int32>, service: Option<ServiceSpec>, traffic: Option<TrafficSnapshot>)

  const EMPTY_SNAPSHOT := Snapshot(None, None, None)

  datatype ObservedRoute = ObservedRoute(kind: string, name: string, ready: Option<bool>, message: string)

  // Everything in the status besides the snapshot; `stamp` stands for the
  // timestamps and generations that the write suppression ignores.
  datatype Report = Report(
    url: string, probe: Option<ProbeStatus>, routes: Option<seq<ObservedRoute>>, conditions: seq<Condition>, stamp: int)

  datatype AdoptionStatus = Status(snapshot: Option<Snapshot>, report: Report)

  const EMPTY_STATUS: AdoptionStatus := Status(None, Report("", None, None, [], 0))

  datatype TrafficSpec = TrafficSpec(
    enabled: bool, mode: string, vsRefs: seq<string>, drRefs: seq<string>, servicePort: Option<int32>)

  datatype Spec = Spec(
    primaryContainer: string, minScale: Option<int32>, maxScale: Option<int32>, targetConcurrency: Option<int32>,
    traffic: Option<TrafficSpec>)

  datatype Adoption = Adoption(
    uid: nat, watcherOwned: bool, spec: Spec, finalizers: set<Finalizer>, deleting: bool, status: AdoptionStatus)

  // The objects that share one name: the adoption's name is its source's name.
  datatype Cluster = Cluster(
    name: string, namespace: string,
    dep: Option<Deployment>, svc: Option<Service>, ksvc: Option<KSvc>,
    vs: map<string, Object>, dr: map<string, Object>,
    cr: Option<Adoption>, nextUid: nat)

  predicate Derived(c: Cluster) { c.svc.Some? && KnativeOwned(c.svc.value) }

  // ---- one pass ----

  datatype Call =
    | PatchFinalizers | GetSource | GetService | DeleteService | GetPort
    | GetRef(kind: TrafficKind, i: nat) | PatchRef(kind: TrafficKind, i: nat)
    | ApplyKSvc | ReadBack | ScaleToZero
    | DeleteKSvc | GetKSvc | GetDerived
    | GetSnap(kind: TrafficKind, i: nat) | WriteSnap(kind: TrafficKind, i: nat)
    | CreateService | DropFinalizer(f: Finalizer) | GetRelease | PatchRelease

  // What the world contributes to a pass: failing calls, readiness at read-back,
  // cascade progress, fresh addresses, and the non-snapshot status it arrives at.
  datatype Pass = Pass(
    faults: set<Call>, ready: bool, ksvcGone: bool, derivedGone: bool,
    clusterIP: string, clusterIPs: seq<string>, report: Report)

  // Writes of spec.replicas, with the cluster as it was at the write.
  datatype Write =
    | Quiesced(at: Cluster, snapshot: Option<Snapshot>, probe: Option<ProbeStatus>)
    | Released(at: Cluster)

  // A pass under way: `snapshot` is the in-memory copy, `go` says it continues.
  datatype Flow = Flow(c: Cluster, snapshot: Option<Snapshot>, go: bool, writes: seq<Write>)
  {
    function Stop(): Flow { this.(go := false) }
  }

  // ---- snapshot access ----

  function SnapReplicas(s: Option<Snapshot>): Option<int32> { if s.Some? then s.value.replicas else None }
  function SnapService(s: Option<Snapshot>): Option<ServiceSpec> { if s.Some? then s.value.service else None }
  function SnapVS(s: Option<Snapshot>): seq<ObjectSnapshot> {
    if s.Some? && s.value.traffic.Some? then s.value.traffic.value.vs else []
  }
  function SnapDR(s: Option<Snapshot>): seq<ObjectSnapshot> {
    if s.Some? && s.value.traffic.Some? then s.value.traffic.value.dr else []
  }

  function Ensure(s: Option<Snapshot>): Snapshot { if s.Some? then s.value else EMPTY_SNAPSHOT }

  function WithTraffic(s: Option<Snapshot>, vs: seq<ObjectSnapshot>, dr: seq<ObjectSnapshot>): Option<Snapshot> {
    if vs == [] && dr == [] then s else Some(Ensure(s).(traffic := Some(TrafficSnapshot(vs, dr))))
  }

  // ---- service swap ----

  datatype Swap = SwapPass | SwapTakenOver | SwapRefused

  function Classify(svc: Option<Service>): Swap {
    if svc.None? || svc.value.managed then SwapPass
    else if svc.value.owner.Some? then (if KnativeOwned(svc.value) then SwapPass else SwapRefused)
    else if svc.value.spec.kind != ClusterIP then SwapRefused
    else SwapTakenOver
  }

  function SwapStage(f: Flow, p: Pass): Flow {
    if GetService in p.faults then f.Stop()
    else match Classify(f.c.svc)
      case SwapPass => f
      case SwapRefused => f.Stop()
      case SwapTakenOver =>
        var snap := Ensure(f.snapshot);
        var kept := if snap.service.Some? then snap else snap.(service := Some(f.c.svc.value.spec.Strip()));
        f.(snapshot := Some(kept), go := false,
           c := if DeleteService in p.faults then f.c else f.c.(svc := None))
  }

  // ---- traffic ----

  datatype Adapt = Adapt(objs: map<string, Object>, snaps: seq<ObjectSnapshot>, ok: bool)

  predicate HasSnapshot(snaps: seq<ObjectSnapshot>, name: string) {
    exists i :: 0 <= i < |snaps| && snaps[i].name == name
  }

  function SnapshotOnce(snaps: seq<ObjectSnapshot>, name: string, obj: Object): seq<ObjectSnapshot> {
    if HasSnapshot(snaps, name) then snaps else snaps + [ObjectSnapshot(name, SpecOf(obj))]
  }

  // One declared reference; a failure is remembered, the loop goes on.
  function AdaptOne(a: Adapt, name: string, get: bool, patch: bool, kind: TrafficKind, sel: Selector): Adapt {
    if name == "" || !get || name !in a.objs then a.(ok := false)
    else
      var snaps := SnapshotOnce(a.snaps, name, a.objs[name]);
      match Rewrite(kind, sel, a.objs[name])
      case Err(_) => a.(snaps := snaps, ok := false)
      case Ok(d) =>
        if d == a.objs[name] then a.(snaps := snaps)
        else if !patch then a.(snaps := snaps, ok := false)
        else a.(snaps := snaps, objs := a.objs[name := d])
  }

  function AdaptAll(a: Adapt, kind: TrafficKind, refs: seq<string>, n: nat, faults: set<Call>, sel: Selector): Adapt
    requires n <= |refs|
  {
    if n == 0 then a
    else AdaptOne(AdaptAll(a, kind, refs, n - 1, faults, sel), refs[n - 1],
                  GetRef(kind, n - 1) !in faults, PatchRef(kind, n - 1) !in faults, kind, sel)
  }

  predicate TrafficEnabled(s: Spec) { s.traffic.Some? && s.traffic.value.enabled }

  // The live Service's first port, or else the declared one.
  function TargetPort(c: Cluster, t: TrafficSpec): Option<int32> {
    if c.svc.Some? && |c.svc.value.spec.ports| > 0 && c.svc.value.spec.ports[0] > 0
    then Some(c.svc.value.spec.ports[0]) else t.servicePort
  }

  function SelectorFor(c: Cluster, t: TrafficSpec): Selector {
    SelectorOf(c.name, c.namespace, t.servicePort, TargetPort(c, t))
  }

  predicate Inplace(t: TrafficSpec) { t.mode in {"", "inplace"} }

  function TrafficStage(f: Flow, p: Pass, s: Spec): Flow {
    if !TrafficEnabled(s) then f
    else
      var t := s.traffic.value;
      if !Inplace(t) || GetPort in p.faults then f.Stop()
      else
        var sel := SelectorFor(f.c, t);
        var v := AdaptAll(Adapt(f.c.vs, SnapVS(f.snapshot), true), VirtualService, t.vsRefs, |t.vsRefs|, p.faults, sel);
        var d := AdaptAll(Adapt(f.c.dr, SnapDR(f.snapshot), true),
                          DestinationRule, t.drRefs, |t.drRefs|, p.faults, sel);
        Flow(f.c.(vs := v.objs, dr := d.objs), WithTraffic(f.snapshot, v.snaps, d.snaps), v.ok && d.ok, f.writes)
  }

  // ---- apply, read back, quiesce ----

  function ApplyStage(f: Flow, p: Pass, desired: KService): Flow {
    if ApplyKSvc in p.faults then f.Stop()
    else
      var live := (if f.c.ksvc.Some? then f.c.ksvc.value else KSvc(false, false, None)).(applied := Some(desired));
      if ReadBack in p.faults then f.(c := f.c.(ksvc := Some(live)), go := false)
      else f.(c := f.c.(ksvc := Some(live.(ready := p.ready))), go := p.ready)
  }

  function QuiesceStage(f: Flow, p: Pass): Flow
    requires f.c.dep.Some?
  {
    var current := Effective(f.c.dep.value.replicas);
    if current == 0 then f
    else
      var snap := Ensure(f.snapshot);
      var kept := Some(if snap.replicas.Some? then snap else snap.(replicas := Some(current)));
      if ScaleToZero in p.faults then f.(snapshot := kept, go := false)
      else f.(snapshot := kept,
              writes := f.writes + [Quiesced(f.c, kept, p.report.probe)],
              c := f.c.(dep := Some(f.c.dep.value.(replicas := Some(0)))))
  }

  // ---- status ----

  predicate SnapshotEqual(a: Option<Snapshot>, b: Option<Snapshot>) {
    if a.None? || b.None? then a.None? && b.None?
    else
      && a.value.replicas == b.value.replicas
      && a.value.service.Some? == b.value.service.Some?
      && a.value.traffic == b.value.traffic
  }

  // The write-suppression test: the Service snapshot is compared by presence only.
  predicate StatusEqual(a: AdoptionStatus, b: AdoptionStatus) {
    SnapshotEqual(a.snapshot, b.snapshot) && a.report.(stamp := 0) == b.report.(stamp := 0)
  }

  function PatchStatus(c: Cluster, original: AdoptionStatus, current: AdoptionStatus): Cluster {
    if c.cr.None? || StatusEqual(original, current) then c else c.(cr := Some(c.cr.value.(status := current)))
  }

  function Knobs(c: Cluster, spec: Spec, probe: Option<ProbeStatus>): AdoptionKnobs {
    AdoptionKnobs(c.name, spec.primaryContainer, spec.minScale, spec.maxScale, spec.targetConcurrency, probe)
  }

  // The guard has run before translation, so the probe is the pass's own.
  function Translated(c: Cluster, spec: Spec, probe: Option<ProbeStatus>): Result<KService, Refusal>
    requires c.dep.Some?
  {
    Translation(Workload(c.name, c.namespace, c.dep.value.template), Knobs(c, spec, probe))
  }

  predicate Translates(c: Cluster, spec: Spec, probe: Option<ProbeStatus>) {
    c.dep.Some? && Translated(c, spec, probe).Ok?
  }

  // ---- adoption ----

  function AdoptFlow(c: Cluster, a: Adoption, p: Pass): Flow {
    var f0 := Flow(c, a.status.snapshot, true, []);
    if GetSource in p.faults || !Translates(c, a.spec, p.report.probe) then f0.Stop()
    else
      var desired := Translated(c, a.spec, p.report.probe).value;
      var f1 := SwapStage(f0, p);
      if !f1.go then f1 else
      var f2 := TrafficStage(f1, p, a.spec);
      if !f2.go then f2 else
      var f3 := ApplyStage(f2, p, desired);
      if !f3.go then f3 else QuiesceStage(f3, p)
  }

  datatype World = World(c: Cluster, log: seq<Write>)

  function AdoptPass(w: World, p: Pass): World
    requires w.c.cr.Some? && !w.c.cr.value.deleting
  {
    var a0 := w.c.cr.value;
    if a0.finalizers != BOTH && PatchFinalizers in p.faults then w
    else
      var a := a0.(finalizers := BOTH);
      var f := AdoptFlow(w.c.(cr := Some(a)), a, p);
      World(PatchStatus(f.c, a.status, Status(f.snapshot, p.report)), w.log + f.writes)
  }

  // ---- release ----

  datatype Undo = Undo(objs: map<string, Object>, ok: bool)

  // A payload that is not an object does not decode.
  predicate Decodes(spec: Option<Json>) { spec.None? || spec.value.Obj? || spec.value.Null? }

  function UndoOne(u: Undo, s: ObjectSnapshot, get: bool, write: bool): Undo {
    if !u.ok || s.name == "" then u
    else if !Decodes(s.spec) || !get then u.(ok := false)
    else if s.name in u.objs && SpecOf(u.objs[s.name]) == s.spec then u
    else if !write then u.(ok := false)
    else u.(objs := u.objs[s.name := WithSpec(if s.name in u.objs then u.objs[s.name] else map[], s.spec)])
  }

  function UndoAll(u: Undo, kind: TrafficKind, snaps: seq<ObjectSnapshot>, n: nat, faults: set<Call>): Undo
    requires n <= |snaps|
  {
    if n == 0 then u
    else UndoOne(UndoAll(u, kind, snaps, n - 1, faults), snaps[n - 1],
                 GetSnap(kind, n - 1) !in faults, WriteSnap(kind, n - 1) !in faults)
  }

  // Delete the KSvc and wait for it and for the Service derived from it.
  function CascadeStage(f: Flow, p: Pass): Flow {
    if DeleteKSvc in p.faults then f.Stop()
    else
      var k := if f.c.ksvc.None? || p.ksvcGone then None else Some(f.c.ksvc.value.(terminating := true));
      var c1 := f.c.(ksvc := k);
      if GetKSvc in p.faults || k.Some? then f.(c := c1, go := false)
      else
        var c2 := if p.derivedGone && Derived(c1) then c1.(svc := None) else c1;
        f.(c := c2, go := GetDerived !in p.faults && !Derived(c2))
  }

  function UndoTrafficStage(f: Flow, p: Pass): Flow {
    var v := UndoAll(Undo(f.c.vs, true), VirtualService, SnapVS(f.snapshot), |SnapVS(f.snapshot)|, p.faults);
    if !v.ok then f.(c := f.c.(vs := v.objs), go := false)
    else
      var d := UndoAll(Undo(f.c.dr, true), DestinationRule, SnapDR(f.snapshot), |SnapDR(f.snapshot)|, p.faults);
      f.(c := f.c.(vs := v.objs, dr := d.objs), go := d.ok)
  }

  // AlreadyExists counts as success.
  function RebuildServiceStage(f: Flow, p: Pass): Flow {
    if SnapService(f.snapshot).None? then f
    else if CreateService in p.faults then f.Stop()
    else if f.c.svc.Some? then f
    else
      var spec := SnapService(f.snapshot).value.(clusterIP := p.clusterIP, clusterIPs := p.clusterIPs);
      f.(c := f.c.(svc := Some(Service(spec, true, None))))
  }

  function DropFinalizerStage(f: Flow, p: Pass, fin: Finalizer): Flow {
    if DropFinalizer(fin) in p.faults || f.c.cr.None? then f.Stop()
    else
      var rest := f.c.cr.value.finalizers - {fin};
      f.(c := f.c.(cr := if rest == {} then None else Some(f.c.cr.value.(finalizers := rest))))
  }

  // Replicas and trigger label travel in one patch; nothing happens without
  // recorded replicas.
  function ReleaseSourceStage(f: Flow, p: Pass): Flow {
    if SnapReplicas(f.snapshot).None? then f
    else if GetRelease in p.faults then f.Stop()
    else if f.c.dep.None? then f
    else
      var dep := f.c.dep.value;
      if dep.replicas == SnapReplicas(f.snapshot) && dep.trigger.None? then f
      else if PatchRelease in p.faults then f.Stop()
      else f.(c := f.c.(dep := Some(dep.(replicas := SnapReplicas(f.snapshot), trigger := None))),
              writes := f.writes + [Released(f.c)])
  }

  function ServicePhase(f: Flow, p: Pass): Flow {
    var f1 := CascadeStage(f, p);
    if !f1.go then f1 else
    var f2 := UndoTrafficStage(f1, p);
    if !f2.go then f2 else
    var f3 := RebuildServiceStage(f2, p);
    if !f3.go then f3 else DropFinalizerStage(f3, p, RestoreService)
  }

  function SourcePhase(f: Flow, p: Pass): Flow {
    var f1 := ReleaseSourceStage(f, p);
    if !f1.go then f1 else DropFinalizerStage(f1, p, RestoreSource)
  }

  function ReleaseFlow(c: Cluster, a: Adoption, p: Pass): Flow {
    var f0 := Flow(c, a.status.snapshot, true, []);
    var f1 := if RestoreService in a.finalizers then ServicePhase(f0, p) else f0;
    if !f1.go || RestoreSource !in a.finalizers then f1 else SourcePhase(f1, p)
  }

  function ReleasePass(w: World, p: Pass): World
    requires w.c.cr.Some? && w.c.cr.value.deleting
  {
    var a := w.c.cr.value;
    var f := ReleaseFlow(w.c, a, p);
    World(PatchStatus(f.c, a.status, Status(f.snapshot, p.report)), w.log + f.writes)
  }

  function Reconcile(w: World, p: Pass): World {
    if w.c.cr.None? then w else if w.c.cr.value.deleting then ReleasePass(w, p) else AdoptPass(w, p)
  }

  // ---- the watcher and everybody else ----

  const LABEL_ENABLED := "enabled"

  predicate Labelled(c: Cluster) { c.dep.Some? && c.dep.value.trigger == Some(LABEL_ENABLED) }

  // A delete request: immediate without finalizers, a deletion mark with them.
  function DeleteAdoption(c: Cluster): Cluster {
    if c.cr.None? then c
    else if c.cr.value.finalizers == {} then c.(cr := None)
    else c.(cr := Some(c.cr.value.(deleting := true)))
  }

  function CreateAdoption(c: Cluster, watcherOwned: bool, spec: Spec): Cluster {
    c.(cr := Some(Adoption(c.nextUid, watcherOwned, spec, {}, false, EMPTY_STATUS)), nextUid := c.nextUid + 1)
  }

  // One atomic watcher pass; `spec` is the projection of the Deployment's annotations.
  function Watch(c: Cluster, spec: Spec): Cluster {
    if Labelled(c) then
      if c.cr.None? then CreateAdoption(c, true, spec)
      else if c.cr.value.watcherOwned then c.(cr := Some(c.cr.value.(spec := spec)))
      else c
    else if c.cr.Some? && c.cr.value.watcherOwned then DeleteAdoption(c)
    else c
  }

  datatype Step =
    | ReconcileStep(p: Pass)
    | WatchStep(spec: Spec)
    | UserCreates(spec: Spec)
    | UserEdits(spec: Spec)
    | UserDeletes
    | UserLabels(trigger: Option<string>)
    | KnativeDerives(derived: ServiceSpec)
    | KnativeDropsDerived
    | KnativeReports(ready: bool)
    | KSvcDeleted
    | KSvcRemoved

  // Steps of other actors; one that does not apply changes nothing.
  function Others(c: Cluster, s: Step): Cluster {
    match s
    case ReconcileStep(_) => c
    case WatchStep(spec) => Watch(c, spec)
    case UserCreates(spec) => if c.cr.None? then CreateAdoption(c, false, spec) else c
    case UserEdits(spec) => if c.cr.Some? then c.(cr := Some(c.cr.value.(spec := spec))) else c
    case UserDeletes => DeleteAdoption(c)
    case UserLabels(l) => if c.dep.Some? then c.(dep := Some(c.dep.value.(trigger := l))) else c
    case KnativeDerives(spec) =>
      if c.ksvc.Some? && c.svc.None? then c.(svc := Some(Service(spec, false, Some(Owner(SERVING, "Route"))))) else c
    case KnativeDropsDerived => if Derived(c) then c.(svc := None) else c
    case KnativeReports(r) => if c.ksvc.Some? then c.(ksvc := Some(c.ksvc.value.(ready := r))) else c
    case KSvcDeleted => if c.ksvc.Some? then c.(ksvc := Some(c.ksvc.value.(terminating := true))) else c
    case KSvcRemoved => if c.ksvc.Some? && c.ksvc.value.terminating then c.(ksvc := None) else c
  }

  function Apply(w: World, s: Step): World {
    match s
    case ReconcileStep(p) => Reconcile(w, p)
    case _ => w.(c := Others(w.c, s))
  }

  function Run(w: World, steps: seq<Step>): World
    decreases |steps|
  {
    if steps == [] then w else Run(Apply(w, steps[0]), steps[1..])
  }
}
