// When a pass of adoption completes.
module ProtocolProgress {
  import opened Basics
  import opened Json
  import opened Traffic
  import opened TrafficTheorems
  import opened Guard
  import opened Translator
  import opened Protocol
  import opened ProtocolInvariants
  import opened ProtocolTheorems

  // ---- traffic ----

  // What the rewrite has to read: a list of HTTP routes, a host.
  predicate Readable(kind: TrafficKind, obj: Object) {
    var key := if kind.VirtualService? then "http" else "host";
    || "spec" !in obj || obj["spec"].Null?
    || (obj["spec"].Obj?
        && (key in obj["spec"].fields ==>
              var v := obj["spec"].fields[key];
              if kind.VirtualService? then v.Arr? else v.Str?))
  }

  lemma ReadableIff(kind: TrafficKind, sel: Selector, obj: Object)
    ensures Rewrite(kind, sel, obj).Ok? <==> Readable(kind, obj)
  {
    hide SetPath;
    assert ["spec", "http"][1..] == ["http"] && ["http"][1..] == [];
    assert ["spec", "host"][1..] == ["host"] && ["host"][1..] == [];
    if "spec" in obj {
      assert NestedField(Obj(obj), HTTP) == NestedField(obj["spec"], ["http"]);
      assert NestedField(Obj(obj), ["spec", "host"]) == NestedField(obj["spec"], ["host"]);
    }
  }

  // Every declared reference is named, exists and can be read.
  ghost predicate RefsReady(objs: map<string, Object>, kind: TrafficKind, refs: seq<string>, n: nat)
    requires n <= |refs|
  {
    forall i :: 0 <= i < n ==> refs[i] != "" && refs[i] in objs && Readable(kind, objs[refs[i]])
  }

  ghost predicate TrafficReady(c: Cluster, s: Spec) {
    s.traffic.Some? && s.traffic.value.enabled ==>
      var t := s.traffic.value;
      && (t.mode == "" || t.mode == "inplace")
      && RefsReady(c.vs, VirtualService, t.vsRefs, |t.vsRefs|)
      && RefsReady(c.dr, DestinationRule, t.drRefs, |t.drRefs|)
  }

  // Rewriting so far has made no object readable or unreadable.
  ghost predicate SameReadable(kind: TrafficKind, start: map<string, Object>, objs: map<string, Object>) {
    objs.Keys == start.Keys && forall n :: n in start ==> Readable(kind, objs[n]) == Readable(kind, start[n])
  }

  lemma AdaptOneReady(start: map<string, Object>, a: Adapt, name: string, kind: TrafficKind, sel: Selector)
    requires SameReadable(kind, start, a.objs)
    ensures var b := AdaptOne(a, name, true, true, kind, sel);
      && SameReadable(kind, start, b.objs)
      && (b.ok <==> a.ok && name != "" && name in start && Readable(kind, start[name]))
  {
    hide Rewrite, Readable, SnapshotOnce;
    if name in a.objs {
      var obj := a.objs[name];
      ReadableIff(kind, sel, obj);
      if Rewrite(kind, sel, obj).Ok? {
        RewriteTwice(kind, sel, obj);
        ReadableIff(kind, sel, Rewrite(kind, sel, obj).value);
      }
    }
  }

  lemma {:induction false} AdaptAllReady(a: Adapt, kind: TrafficKind, refs: seq<string>, n: nat, sel: Selector)
    requires n <= |refs|
    ensures var b := AdaptAll(a, kind, refs, n, {}, sel);
      SameReadable(kind, a.objs, b.objs) && (b.ok <==> a.ok && RefsReady(a.objs, kind, refs, n))
  {
    hide AdaptOne, Readable;
    if n > 0 {
      AdaptAllReady(a, kind, refs, n - 1, sel);
      AdaptOneReady(a.objs, AdaptAll(a, kind, refs, n - 1, {}, sel), refs[n - 1], kind, sel);
    }
  }

  lemma CleanTrafficIff(f: Flow, p: Pass, s: Spec)
    requires f.go && p.faults == {}
    ensures TrafficStage(f, p, s).go <==> TrafficReady(f.c, s)
  {
    if TrafficEnabled(s) {
      var t := s.traffic.value;
      var sel := SelectorFor(f.c, t);
      AdaptAllReady(Adapt(f.c.vs, SnapVS(f.snapshot), true), VirtualService, t.vsRefs, |t.vsRefs|, sel);
      AdaptAllReady(Adapt(f.c.dr, SnapDR(f.snapshot), true), DestinationRule, t.drRefs, |t.drRefs|, sel);
    }
    hide AdaptAll, RefsReady, SelectorFor, SameReadable;
  }

  // ---- the whole pass ----

  // The workload runs on Knative, as its translation, and its Deployment is quiet.
  ghost predicate Adopted(c: Cluster, desired: KService) {
    && c.dep.Some? && c.dep.value.replicas == Some(0)
    && c.ksvc.Some? && c.ksvc.value.ready && c.ksvc.value.applied == Some(desired)
  }

  lemma LateStages(f: Flow, p: Pass, desired: KService)
    requires f.go && p.faults == {} && f.c.dep.Some?
    ensures ApplyStage(f, p, desired).go <==> p.ready
    ensures p.ready ==> var g := QuiesceStage(ApplyStage(f, p, desired), p); g.go && Adopted(g.c, desired)
  {
  }

  // Without failing calls a pass adopts exactly the workloads that translate, have
  // no Service in the way, have readable traffic objects and become ready.
  lemma CleanAdoptionIff(c: Cluster, a: Adoption, p: Pass)
    requires p.faults == {}
    ensures var f := AdoptFlow(c, a, p);
      && (f.go <==>
            Translates(c, a.spec, p.report.probe) && Classify(c.svc) == SwapPass && TrafficReady(c, a.spec) && p.ready)
      && (f.go ==> Adopted(f.c, Translated(c, a.spec, p.report.probe).value))
  {
    var f0 := Flow(c, a.status.snapshot, true, []);
    if Translates(c, a.spec, p.report.probe) && Classify(c.svc) == SwapPass {
      var f1 := SwapStage(f0, p);
      assert f1 == f0;
      CleanTrafficIff(f1, p, a.spec);
      TrafficKeepsDep(f1, p, a.spec);
      var f2 := TrafficStage(f1, p, a.spec);
      if f2.go { LateStages(f2, p, Translated(c, a.spec, p.report.probe).value); }
    }
    hide TrafficStage, ApplyStage, QuiesceStage, TrafficReady, Adopted, Translated;
  }

  // The workload can run on Knative: no host namespace, no host port, and the
  // container that its adoption designates offers a TCP port first.
  ghost predicate Adoptable(c: Cluster, spec: Spec) {
    && c.dep.Some?
    && var pod := c.dep.value.template;
       && !pod.hostNetwork && !pod.hostPID && !pod.hostIPC && !BindsHostPort(pod.containers)
       && exists i: nat :: Chooses(pod.containers, spec.primaryContainer, i) && OffersTCP(pod.containers[i])
  }

  lemma AdoptableIff(c: Cluster, spec: Spec, probe: Option<ProbeStatus>)
    ensures Translates(c, spec, probe) <==> Adoptable(c, spec)
  {
    if c.dep.Some? {
      TranslatesIff(Workload(c.name, c.namespace, c.dep.value.template), Knobs(c, spec, probe));
    }
    hide Translation, BindsHostPort, Chooses, OffersTCP;
  }

  // The workload of c runs on Knative as its adoption asks, and its Deployment is quiet.
  ghost predicate Runs(d: Cluster, c: Cluster, spec: Spec, probe: Option<ProbeStatus>) {
    && d.dep.Some? && d.dep.value.replicas == Some(0)
    && d.ksvc.Some? && d.ksvc.value.ready && d.ksvc.value.applied.Some?
    && Carries(c, spec, probe, d.ksvc.value.applied.value)
  }

  // An ordinary internal Service of the user's.
  predicate Plain(s: Service) { !s.managed && s.owner.None? && s.spec.kind == ClusterIP }

  // The same in terms of the workload and its adoption alone: which workloads a pass
  // without failing calls adopts, and what then runs.
  lemma AdoptsIff(c: Cluster, a: Adoption, p: Pass)
    requires p.faults == {}
    ensures var f := AdoptFlow(c, a, p);
      && (f.go <==> Adoptable(c, a.spec) && Vacant(c.svc) && TrafficReady(c, a.spec) && p.ready)
      && (f.go ==> Runs(f.c, c, a.spec, p.report.probe))
  {
    hide AdoptFlow, Adoptable, TrafficReady, Carries, Translated, KnativeOwned, FromKnative;
    AdoptableIff(c, a.spec, p.report.probe);
    CleanAdoptionIff(c, a, p);
    PassIffVacant(c.svc);
    hide Classify, Vacant;
    if Translates(c, a.spec, p.report.probe) { TranslatedCarries(c, a.spec, p.report.probe); }
  }

  // A plain Service is taken over first: recorded without its addresses, then gone.
  lemma CleanTakeover(c: Cluster, a: Adoption, p: Pass)
    requires p.faults == {} && Translates(c, a.spec, p.report.probe)
    requires c.svc.Some? && Plain(c.svc.value)
    ensures var f := AdoptFlow(c, a, p);
      && f.c == c.(svc := None) && SnapService(f.snapshot).Some?
      && (SnapService(a.status.snapshot).None? ==>
            var kept, spec := SnapService(f.snapshot).value, c.svc.value.spec;
            SameService(kept, spec) && kept.clusterIP == "" && kept.clusterIPs == [])
      && SnapVS(f.snapshot) == SnapVS(a.status.snapshot) && SnapDR(f.snapshot) == SnapDR(a.status.snapshot)
      && SnapReplicas(f.snapshot) == SnapReplicas(a.status.snapshot)
  {
    hide Translated;
  }

  lemma AdoptPassCompletes(w: World, p: Pass)
    requires w.c.cr.Some? && !w.c.cr.value.deleting && p.faults == {} && p.ready
    requires Translates(w.c, w.c.cr.value.spec, p.report.probe) && TrafficReady(w.c, w.c.cr.value.spec)
    requires Classify(w.c.svc) == SwapPass
    ensures Adopted(AdoptPass(w, p).c, Translated(w.c, w.c.cr.value.spec, p.report.probe).value)
  {
    var a := w.c.cr.value.(finalizers := BOTH);
    var c := w.c.(cr := Some(a));
    assert Translates(c, a.spec, p.report.probe);
    assert Translated(c, a.spec, p.report.probe) == Translated(w.c, a.spec, p.report.probe);
    CleanAdoptionIff(c, a, p);
    hide AdoptFlow, Translated, StatusEqual;
  }

  lemma TakeoverPass(w: World, p: Pass)
    requires w.c.cr.Some? && !w.c.cr.value.deleting && p.faults == {}
    requires Translates(w.c, w.c.cr.value.spec, p.report.probe) && Classify(w.c.svc) == SwapTakenOver
    ensures var v := AdoptPass(w, p).c;
      && v == w.c.(svc := None, cr := v.cr) && v.cr.Some? && !v.cr.value.deleting && v.cr.value.finalizers == BOTH
      && v.cr.value.spec == w.c.cr.value.spec && v.cr.value.uid == w.c.cr.value.uid
      && SnapVS(v.cr.value.status.snapshot) == SnapVS(w.c.cr.value.status.snapshot)
      && SnapDR(v.cr.value.status.snapshot) == SnapDR(w.c.cr.value.status.snapshot)
      && SnapReplicas(v.cr.value.status.snapshot) == SnapReplicas(w.c.cr.value.status.snapshot)
  {
    var a := w.c.cr.value.(finalizers := BOTH);
    assert Translates(w.c.(cr := Some(a)), a.spec, p.report.probe);
    CleanTakeover(w.c.(cr := Some(a)), a, p);
    hide AdoptFlow, Translated, StatusEqual;
  }

  // Two passes without failing calls adopt every workload that can be adopted.
  lemma TwoPassesAdopt(w: World, p: Pass, q: Pass)
    requires w.c.cr.Some? && !w.c.cr.value.deleting && p.faults == q.faults == {} && p.ready && q.ready
    requires Adoptable(w.c, w.c.cr.value.spec) && TrafficReady(w.c, w.c.cr.value.spec)
    requires Vacant(w.c.svc) || Plain(w.c.svc.value)
    ensures var spec, v := w.c.cr.value.spec, Apply(w, ReconcileStep(p));
      if Vacant(w.c.svc) then Runs(v.c, w.c, spec, p.report.probe)
      else Runs(Apply(v, ReconcileStep(q)).c, w.c, spec, q.report.probe)
  {
    var v := Apply(w, ReconcileStep(p));
    var spec := w.c.cr.value.spec;
    AdoptableIff(w.c, spec, p.report.probe);
    AdoptableIff(w.c, spec, q.report.probe);
    if Vacant(w.c.svc) {
      AdoptPassCompletes(w, p);
      TranslatedCarries(w.c, spec, p.report.probe);
    } else {
      TakeoverPass(w, p);
      assert Translates(v.c, v.c.cr.value.spec, q.report.probe)
        && Translated(v.c, v.c.cr.value.spec, q.report.probe) == Translated(w.c, spec, q.report.probe);
      AdoptPassCompletes(v, q);
      TranslatedCarries(w.c, spec, q.report.probe);
    }
    hide AdoptPass, Translated, TrafficReady, Carries, Adoptable;
  }

  // ---- the status ----

  // The report in the stored status is that of the pass, timestamps and generations aside.
  predicate Reported(a: Adoption, report: Report) {
    && a.status.report.url == report.url && a.status.report.probe == report.probe
    && a.status.report.routes == report.routes && a.status.report.conditions == report.conditions
  }

  lemma PatchReports(c: Cluster, original: AdoptionStatus, current: AdoptionStatus)
    requires c.cr.Some? && c.cr.value.status == original
    requires StatusEqual(original, current) ==> original.snapshot == current.snapshot
    ensures var d := PatchStatus(c, original, current);
      d.cr.Some? && Reported(d.cr.value, current.report) && d.cr.value.status.snapshot == current.snapshot
  {
    hide SnapshotEqual;
  }

  lemma AdoptReports(o: Origin, w: World, p: Pass)
    requires Inv(o, w.c) && w.c.cr.Some? && !w.c.cr.value.deleting
    requires w.c.cr.value.finalizers == BOTH || PatchFinalizers !in p.faults
    ensures var b := w.c.cr.value.(finalizers := BOTH);
      var d := AdoptPass(w, p).c;
      && d.cr.Some? && Reported(d.cr.value, p.report)
      && d.cr.value.status.snapshot == AdoptFlow(w.c.(cr := Some(b)), b, p).snapshot
  {
    var b := w.c.cr.value.(finalizers := BOTH);
    var c := w.c.(cr := Some(b));
    SafeAdopting(o, w.c, c);
    AdoptFlowSafe(o, c, b, p);
    hide Inv, AdoptFlow, StatusEqual, Safe, PatchStatus, Reported;
    var f := AdoptFlow(c, b, p);
    if StatusEqual(b.status, Status(f.snapshot, p.report)) { SuppressedWriteLosesNothing(o, c, b, p); }
    PatchReports(f.c, b.status, Status(f.snapshot, p.report));
  }

  lemma SafeAdopting(o: Origin, c: Cluster, d: Cluster)
    requires Inv(o, c) && c.cr.Some? && d == c.(cr := d.cr)
    ensures Safe(o, d, c.cr.value.status.snapshot)
  {
    SafeReader(o, c, d, c.cr.value.status.snapshot);
  }

  lemma ReleaseReports(o: Origin, w: World, p: Pass)
    requires Inv(o, w.c) && w.c.cr.Some? && w.c.cr.value.deleting && ReleasePass(w, p).c.cr.Some?
    ensures var d := ReleasePass(w, p).c;
      Reported(d.cr.value, p.report) && d.cr.value.status.snapshot == w.c.cr.value.status.snapshot
  {
    var a := w.c.cr.value;
    ReleaseFlowSafe(o, w.c, a, p);
    hide Inv, ReleaseFlow, StatusEqual, Safe, PatchStatus, Reported, ServiceSideRestored;
    var f := ReleaseFlow(w.c, a, p);
    if f.c.cr.None? { GoneStaysGone(f.c, a.status, Status(f.snapshot, p.report)); }
    else { PatchReports(f.c, a.status, Status(f.snapshot, p.report)); }
  }

  lemma GoneStaysGone(c: Cluster, original: AdoptionStatus, current: AdoptionStatus)
    requires c.cr.None?
    ensures PatchStatus(c, original, current).cr.None?
  {
  }

  // After a pass the stored status says what the pass has found, whether its write was
  // suppressed or not.
  lemma PassReports(o: Origin, w: World, p: Pass)
    requires Inv(o, w.c) && w.c.cr.Some? && Reconcile(w, p).c.cr.Some?
    requires w.c.cr.value.finalizers == BOTH || PatchFinalizers !in p.faults
    ensures Reported(Reconcile(w, p).c.cr.value, p.report)
  {
    if w.c.cr.value.deleting { ReleaseReports(o, w, p); } else { AdoptReports(o, w, p); }
    hide Inv, AdoptPass, ReleasePass, Reported;
  }
}
