// What adoption and release guarantee over whole runs.
module ProtocolTheorems {
  import opened Basics
  import opened Json
  import opened Traffic
  import opened TrafficTheorems
  import opened Guard
  import opened Translator
  import opened Protocol
  import opened ProtocolInvariants

  // A Service that a Knative Route controls.
  predicate FromKnative(s: Service) { s.owner.Some? && s.owner.value.apiVersion == "serving.knative.dev/v1" }

  // Before anything was adopted: no adoption, no KSvc, no Service of Knative's, and
  // traffic objects as their schemas have them.
  ghost predicate Initial(c: Cluster) {
    && c.cr.None? && c.ksvc.None? && (c.svc.Some? ==> !FromKnative(c.svc.value))
    && TypedObjects(c.vs) && TypedObjects(c.dr)
  }

  lemma InitialInv(c: Cluster)
    requires Initial(c)
    ensures Inv(OriginOf(c), c)
  {
    forall m: map<string, Object>, n | n in m
      ensures SpecOnly(m[n], m[n])
    {
      WithSpecOf(m[n], SpecOf(m[n]));
    }
    hide SpecOnly;
  }

  // ---- round trip ----

  // The same number of pods is asked for; no number means one.
  predicate SameReplicas(a: Option<int32>, b: Option<int32>) {
    a == b || (a == None && b == Some(1)) || (a == Some(1) && b == None)
  }

  // Everything but the addresses, which belong to the API server.
  predicate SameService(a: ServiceSpec, b: ServiceSpec) { a.kind == b.kind && a.ports == b.ports && a.rest == b.rest }

  // After any number of adoptions and releases, interrupted anywhere, whenever no
  // adoption is left the workload is what it was: the replicas asked for, the Service
  // up to its addresses, and every traffic object as a whole.
  lemma RoundTrip(c: Cluster, steps: seq<Step>)
    requires Initial(c) && Run(World(c, []), steps).c.cr.None?
    ensures var d := Run(World(c, []), steps).c;
      && d.ksvc.None? && d.dep.Some? == c.dep.Some? && d.svc.Some? == c.svc.Some?
      && (c.dep.Some? ==> SameReplicas(d.dep.value.replicas, c.dep.value.replicas))
      && (c.svc.Some? ==> SameService(d.svc.value.spec, c.svc.value.spec) && !FromKnative(d.svc.value))
      && d.vs == c.vs && d.dr == c.dr
  {
    InitialInv(c);
    RunInv(OriginOf(c), World(c, []), steps);
    var d := Run(World(c, []), steps).c;
    assert d.vs == c.vs && d.dr == c.dr by { hide SpecOnly; }
  }

  // ---- snapshots are written once ----

  // Adoption u after a step is adoption u before it, with at least that snapshot.
  ghost predicate Continues(c: Cluster, d: Cluster, u: nat) {
    && c.nextUid <= d.nextUid
    && (d.cr.Some? && d.cr.value.uid == u ==>
          && c.cr.Some? && c.cr.value.uid == u
          && Extends(c.cr.value.status.snapshot, d.cr.value.status.snapshot)
          && (c.cr.value.deleting ==> d.cr.value.deleting))
  }

  lemma OthersContinue(c: Cluster, s: Step, u: nat)
    requires u < c.nextUid
    ensures Continues(c, Others(c, s), u)
  {
    if c.cr.Some? { ExtendsSame(c.cr.value.status.snapshot); }
    hide Extends;
  }

  lemma StepContinues(o: Origin, w: World, s: Step, u: nat)
    requires Inv(o, w.c) && u < w.c.nextUid
    ensures Continues(w.c, Apply(w, s).c, u)
  {
    OthersContinue(w.c, s, u);
    if s.ReconcileStep? && w.c.cr.Some? {
      ExtendsSame(w.c.cr.value.status.snapshot);
      if w.c.cr.value.deleting { ReleasePassInv(o, w, s.p); } else { AdoptPassInv(o, w, s.p); }
    }
    hide AdoptPass, ReleasePass, Inv, Extends, Others;
  }

  // Along any run, whatever part of an adoption's snapshot is set stays as it is,
  // and no traffic object is snapshotted twice.
  lemma {:induction false} SnapshotsAreWrittenOnce(o: Origin, w: World, steps: seq<Step>, u: nat)
    requires Inv(o, w.c) && u < w.c.nextUid
    ensures var d := Run(w, steps).c;
      d.cr.Some? && d.cr.value.uid == u ==>
        && w.c.cr.Some? && w.c.cr.value.uid == u
        && Extends(w.c.cr.value.status.snapshot, d.cr.value.status.snapshot)
        && UniqueNames(SnapVS(d.cr.value.status.snapshot)) && UniqueNames(SnapDR(d.cr.value.status.snapshot))
        && (w.c.cr.value.deleting ==> d.cr.value.deleting)
    decreases |steps|
  {
    if steps == [] {
      if w.c.cr.Some? { ExtendsSame(w.c.cr.value.status.snapshot); }
      hide Extends;
    } else {
      StepContinues(o, w, steps[0], u);
      StepInv(o, w, steps[0]);
      hide Inv, Apply;
      SnapshotsAreWrittenOnce(o, Apply(w, steps[0]), steps[1..], u);
    }
  }

  // A pass whose status write is suppressed has changed no part of the snapshot.
  lemma SuppressedWriteLosesNothing(o: Origin, c: Cluster, a: Adoption, p: Pass)
    requires Safe(o, c, a.status.snapshot)
    requires StatusEqual(a.status, Status(AdoptFlow(c, a, p).snapshot, p.report))
    ensures AdoptFlow(c, a, p).snapshot == a.status.snapshot
  {
    AdoptFlowSafe(o, c, a, p);
    hide AdoptFlow, Safe;
    SuppressionIsLossless(a.status.snapshot, AdoptFlow(c, a, p).snapshot);
  }

  // ---- single writer ----

  // Every named object exists and is a fixed point of its rewrite.
  ghost predicate Fixed(objs: map<string, Object>, names: seq<string>, n: nat, kind: TrafficKind, sel: Selector)
    requires n <= |names|
  {
    forall i :: 0 <= i < n ==> names[i] in objs && Rewrite(kind, sel, objs[names[i]]) == Ok(objs[names[i]])
  }

  ghost predicate Converged(c: Cluster, s: Spec) {
    TrafficEnabled(s) ==>
      var t := s.traffic.value;
      && Fixed(c.vs, t.vsRefs, |t.vsRefs|, VirtualService, SelectorFor(c, t))
      && Fixed(c.dr, t.drRefs, |t.drRefs|, DestinationRule, SelectorFor(c, t))
  }

  // Traffic is back when every snapshotted object carries its snapshot.
  ghost predicate TrafficBack(c: Cluster, s: Option<Snapshot>) {
    UndoneUpTo(c.vs, SnapVS(s), |SnapVS(s)|) && UndoneUpTo(c.dr, SnapDR(s), |SnapDR(s)|)
  }

  // The KSvc that an adoption with this spec asks for, given the last probe round.
  ghost predicate Carries(c: Cluster, spec: Spec, probe: Option<ProbeStatus>, k: KService) {
    && c.dep.Some?
    && Realizes(k, Workload(c.name, c.namespace, c.dep.value.template), c.name, spec.primaryContainer,
                spec.minScale, spec.maxScale, spec.targetConcurrency, probe)
  }

  lemma TranslatedCarries(c: Cluster, spec: Spec, probe: Option<ProbeStatus>)
    requires Translates(c, spec, probe)
    ensures Carries(c, spec, probe, Translated(c, spec, probe).value)
  {
    hide Translation, Realizes;
    TranslationRealizes(Workload(c.name, c.namespace, c.dep.value.template), Knobs(c, spec, probe));
  }

  // Nothing stands where Knative's Service goes, or it is the operator's or Knative's own.
  predicate Vacant(svc: Option<Service>) { svc.None? || svc.value.managed || FromKnative(svc.value) }

  // What must be true of the cluster when the operator writes replicas.
  ghost predicate Justified(w: Write) {
    match w
    case Quiesced(at, snapshot, probe) =>
      && at.cr.Some? && !at.cr.value.deleting && at.cr.value.finalizers == BOTH
      && Translates(at, at.cr.value.spec, probe) && Vacant(at.svc) && Converged(at, at.cr.value.spec)
      && at.ksvc.Some? && at.ksvc.value.ready
      && at.ksvc.value.applied == Some(Translated(at, at.cr.value.spec, probe).value)
      && Carries(at, at.cr.value.spec, probe, at.ksvc.value.applied.value)
      && SnapReplicas(snapshot).Some?
    case Released(at) =>
      && at.cr.Some? && at.cr.value.deleting && at.cr.value.finalizers == {RestoreSource}
      && at.ksvc.None? && (at.svc.Some? ==> !FromKnative(at.svc.value))
      && TrafficBack(at, at.cr.value.status.snapshot)
      && (SnapService(at.cr.value.status.snapshot).Some? ==>
            at.svc.Some? && SameService(at.svc.value.spec, SnapService(at.cr.value.status.snapshot).value))
  }

  lemma AdaptOneFixes(a: Adapt, names: seq<string>, n: nat, get: bool, patch: bool, kind: TrafficKind, sel: Selector)
    requires n < |names| && (a.ok ==> Fixed(a.objs, names, n, kind, sel))
    ensures var b := AdaptOne(a, names[n], get, patch, kind, sel);
      b.ok ==> a.ok && Fixed(b.objs, names, n + 1, kind, sel)
  {
    hide Rewrite, SnapshotOnce;
    if names[n] in a.objs && Rewrite(kind, sel, a.objs[names[n]]).Ok? { RewriteTwice(kind, sel, a.objs[names[n]]); }
  }

  lemma {:induction false} AdaptAllFixes(a: Adapt, kind: TrafficKind, refs: seq<string>, n: nat, faults: set<Call>,
                                         sel: Selector)
    requires n <= |refs|
    ensures var b := AdaptAll(a, kind, refs, n, faults, sel); b.ok ==> Fixed(b.objs, refs, n, kind, sel)
  {
    hide AdaptOne, Rewrite;
    if n > 0 {
      AdaptAllFixes(a, kind, refs, n - 1, faults, sel);
      AdaptOneFixes(AdaptAll(a, kind, refs, n - 1, faults, sel), refs, n - 1,
                    GetRef(kind, n - 1) !in faults, PatchRef(kind, n - 1) !in faults, kind, sel);
    }
  }

  lemma TrafficConverges(f: Flow, p: Pass, s: Spec)
    requires TrafficStage(f, p, s).go
    ensures Converged(TrafficStage(f, p, s).c, s)
  {
    if TrafficEnabled(s) {
      var t := s.traffic.value;
      var sel := SelectorFor(f.c, t);
      AdaptAllFixes(Adapt(f.c.vs, SnapVS(f.snapshot), true), VirtualService, t.vsRefs, |t.vsRefs|, p.faults, sel);
      AdaptAllFixes(Adapt(f.c.dr, SnapDR(f.snapshot), true), DestinationRule, t.drRefs, |t.drRefs|, p.faults, sel);
    }
    hide AdaptAll, Fixed;
  }

  // A destination among the HTTP routes of a VirtualService.
  ghost predicate HasDestination(vs: Object, i: nat, j: nat, dest: Object) {
    var https := Lookup(Obj(vs), ["spec", "http"]);
    && https.Some? && https.value.Arr? && i < |https.value.items|
    && var http := https.value.items[i];
       && http.Obj? && "route" in http.fields && http.fields["route"].Arr? && j < |http.fields["route"].items|
       && var route := http.fields["route"].items[j];
          route.Obj? && "destination" in route.fields && route.fields["destination"] == Obj(dest)
  }

  lemma FixedDestination(service: string, namespace: string, declared: Option<int32>, target: Option<int32>,
                         vs: Object, i: nat, j: nat, dest: Object)
    requires RewriteVirtualService(SelectorOf(service, namespace, declared, target), vs) == Ok(vs)
    requires HasDestination(vs, i, j, dest)
    ensures Managed(service, namespace, declared, target, dest) ==> Moved(target, dest, dest)
  {
    VirtualServiceFrame(service, namespace, declared, target, vs, []);
    var http := Lookup(Obj(vs), ["spec", "http"]).value.items[i];
    hide Managed, Moved, RewriteVirtualService, Lookup;
    assert HttpFramed(service, namespace, declared, target, http, http);
    var route := http.fields["route"].items[j];
    assert RouteFramed(service, namespace, declared, target, route, route);
  }

  // Where traffic has converged, the routes of the adopted Service on the declared
  // port and on the live one have lost their subsets and lead to the first port of the
  // live Service, or stay on the declared one when there is none.
  lemma RoutesReachService(c: Cluster, s: Spec, n: nat, i: nat, j: nat, dest: Object)
    requires s.traffic.Some? && s.traffic.value.enabled && Converged(c, s) && n < |s.traffic.value.vsRefs|
    requires s.traffic.value.vsRefs[n] in c.vs && HasDestination(c.vs[s.traffic.value.vsRefs[n]], i, j, dest)
    requires ForHost(c.name, c.namespace, dest)
    ensures var declared := s.traffic.value.servicePort;
      if c.svc.Some? && c.svc.value.spec.ports != [] && c.svc.value.spec.ports[0] > 0 then
        var live := c.svc.value.spec.ports[0];
        OnPort(dest, declared) || OnPort(dest, Some(live)) ==> "subset" !in dest && OnPort(dest, Some(live))
      else
        OnPort(dest, declared) || !Positive(declared) ==> "subset" !in dest
  {
    var t := s.traffic.value;
    var vs := c.vs[t.vsRefs[n]];
    assert Rewrite(VirtualService, SelectorFor(c, t), vs) == Ok(vs);
    FixedDestination(c.name, c.namespace, t.servicePort, TargetPort(c, t), vs, i, j, dest);
    hide Converged, HasDestination, Rewrite, ForHost, Denotes;
  }

  // And the referenced DestinationRules of the adopted Service have no subsets left.
  lemma RulesHaveNoSubsets(c: Cluster, s: Spec, n: nat, rule: Object)
    requires s.traffic.Some? && s.traffic.value.enabled && Converged(c, s) && n < |s.traffic.value.drRefs|
    requires s.traffic.value.drRefs[n] in c.dr && c.dr[s.traffic.value.drRefs[n]] == rule
    requires "spec" in rule && rule["spec"].Obj? && ForHost(c.name, c.namespace, rule["spec"].fields)
    ensures "subsets" !in rule["spec"].fields
  {
    var sel := SelectorFor(c, s.traffic.value);
    assert Rewrite(DestinationRule, sel, rule) == Ok(rule);
    DestinationRuleFrame(c.name, c.namespace, rule, []);
    hide Converged, RewriteDestinationRule;
  }

  lemma PassIffVacant(svc: Option<Service>)
    ensures Classify(svc) == SwapPass <==> Vacant(svc)
  {
  }

  lemma QuiesceJustified(f: Flow, p: Pass, a: Adoption, desired: KService)
    requires f.writes == [] && f.c.cr == Some(a) && !a.deleting && a.finalizers == BOTH && f.c.dep.Some?
    requires Translates(f.c, a.spec, p.report.probe) && Translated(f.c, a.spec, p.report.probe) == Ok(desired)
    requires Classify(f.c.svc) == SwapPass && Converged(f.c, a.spec)
    requires var g := ApplyStage(f, p, desired); g.go
    ensures var g := QuiesceStage(ApplyStage(f, p, desired), p);
      forall i :: 0 <= i < |g.writes| ==> Justified(g.writes[i])
  {
    var g := ApplyStage(f, p, desired);
    ConvergedReader(f.c, g.c, a.spec);
    assert Translated(g.c, a.spec, p.report.probe) == Ok(desired);
    TranslatedCarries(g.c, a.spec, p.report.probe);
    PassIffVacant(f.c.svc);
    hide Converged, Translated, Classify, Carries, Vacant;
  }

  lemma EarlyStagesWriteNothing(f: Flow, p: Pass, s: Spec, desired: KService)
    ensures SwapStage(f, p).writes == f.writes && TrafficStage(f, p, s).writes == f.writes
    ensures ApplyStage(f, p, desired).writes == f.writes
    ensures SwapStage(f, p).go ==> SwapStage(f, p).c == f.c && Classify(f.c.svc) == SwapPass
  {
    TrafficKeepsDep(f, p, s);
    hide TrafficStage;
  }

  lemma AdoptWritesJustified(c: Cluster, a: Adoption, p: Pass)
    requires c.cr == Some(a) && !a.deleting && a.finalizers == BOTH
    ensures forall i :: 0 <= i < |AdoptFlow(c, a, p).writes| ==> Justified(AdoptFlow(c, a, p).writes[i])
  {
    var f0 := Flow(c, a.status.snapshot, true, []);
    if GetSource !in p.faults && Translates(c, a.spec, p.report.probe) {
      var desired := Translated(c, a.spec, p.report.probe).value;
      var f1 := SwapStage(f0, p);
      EarlyStagesWriteNothing(f0, p, a.spec, desired);
      var f2 := TrafficStage(f1, p, a.spec);
      EarlyStagesWriteNothing(f1, p, a.spec, desired);
      EarlyStagesWriteNothing(f2, p, a.spec, desired);
      TrafficKeepsDep(f1, p, a.spec);
      TrafficKeepsRest(f1, p, a.spec);
      if f1.go && f2.go {
        TrafficConverges(f1, p, a.spec);
        assert Translated(f2.c, a.spec, p.report.probe) == Ok(desired);
        if ApplyStage(f2, p, desired).go { QuiesceJustified(f2, p, a, desired); }
      }
    }
    hide Converged, Justified, SwapStage, TrafficStage, ApplyStage, QuiesceStage, Translated, Classify;
  }

  lemma TrafficKeepsRest(f: Flow, p: Pass, s: Spec)
    ensures TrafficStage(f, p, s).c.cr == f.c.cr && TrafficStage(f, p, s).c.name == f.c.name
         && TrafficStage(f, p, s).c.namespace == f.c.namespace
  {
    hide AdaptAll;
  }

  lemma ConvergedReader(c: Cluster, d: Cluster, s: Spec)
    requires Converged(c, s) && d == c.(ksvc := d.ksvc)
    ensures Converged(d, s)
  {
  }

  lemma RestoredIsTrafficBack(o: Origin, c: Cluster, s: Option<Snapshot>)
    requires Safe(o, c, s) && ServiceSideRestored(o, c)
    ensures TrafficBack(c, s)
    ensures SnapService(s).Some? ==> c.svc.Some? && SameService(c.svc.value.spec, SnapService(s).value)
  {
    hide SpecOnly;
  }

  lemma ReleaseWritesJustified(o: Origin, c: Cluster, a: Adoption, p: Pass)
    requires Inv(o, c) && c.cr == Some(a) && a.deleting
    ensures forall i :: 0 <= i < |ReleaseFlow(c, a, p).writes| ==> Justified(ReleaseFlow(c, a, p).writes[i])
  {
    var f0 := Flow(c, a.status.snapshot, true, []);
    hide Safe, ServiceSideRestored;
    if a.finalizers == BOTH {
      ServicePhaseSafe(o, f0, a, p);
    }
    var f1 := if RestoreService in a.finalizers then ServicePhase(f0, p) else f0;
    hide ServicePhase;
    if f1.go {
      RestoredIsTrafficBack(o, f1.c, f1.snapshot);
      RestoredHasNoKnative(o, f1.c);
      SourceWriteJustified(f1, p);
    }
    hide SourcePhase, Justified;
  }

  lemma SourceWriteJustified(f: Flow, p: Pass)
    requires f.writes == [] && Justified(Released(f.c))
    ensures forall i :: 0 <= i < |SourcePhase(f, p).writes| ==> Justified(SourcePhase(f, p).writes[i])
  {
    hide Justified;
  }

  lemma RestoredHasNoKnative(o: Origin, c: Cluster)
    requires ServiceSideRestored(o, c)
    ensures c.ksvc.None? && !Derived(c)
  {
  }

  lemma StepWritesJustified(o: Origin, w: World, s: Step)
    requires Inv(o, w.c)
    ensures var v := Apply(w, s); w.log <= v.log && forall i :: |w.log| <= i < |v.log| ==> Justified(v.log[i])
  {
    if s.ReconcileStep? && w.c.cr.Some? {
      if w.c.cr.value.deleting {
        ReleaseWritesJustified(o, w.c, w.c.cr.value, s.p);
      } else {
        var a := w.c.cr.value.(finalizers := BOTH);
        AdoptWritesJustified(w.c.(cr := Some(a)), a, s.p);
      }
    }
    hide Justified, ReleaseFlow, AdoptFlow, Inv, Others;
  }

  // Over any run, replicas are only ever written to zero when the KSvc has taken
  // over, and only ever written back when nothing of Knative is left.
  lemma {:induction false} EveryWriteIsJustified(o: Origin, w: World, steps: seq<Step>)
    requires Inv(o, w.c) && forall i :: 0 <= i < |w.log| ==> Justified(w.log[i])
    ensures forall i :: 0 <= i < |Run(w, steps).log| ==> Justified(Run(w, steps).log[i])
    decreases |steps|
  {
    hide Inv, Apply, Justified;
    if steps != [] {
      StepWritesJustified(o, w, steps[0]);
      StepInv(o, w, steps[0]);
      EveryWriteIsJustified(o, Apply(w, steps[0]), steps[1..]);
    }
  }

  lemma SingleWriter(c: Cluster, steps: seq<Step>)
    requires Initial(c)
    ensures var log := Run(World(c, []), steps).log; forall i :: 0 <= i < |log| ==> Justified(log[i])
  {
    InitialInv(c);
    hide Inv, Justified, Initial;
    EveryWriteIsJustified(OriginOf(c), World(c, []), steps);
  }

  // ---- no re-adoption ----

  // The Deployment asks to be adopted.
  predicate Triggered(c: Cluster) { c.dep.Some? && c.dep.value.trigger == Some("enabled") }

  // The watcher never changes or deletes an adoption it does not own.
  lemma WatcherRespectsUsers(c: Cluster, spec: Spec)
    requires c.cr.Some? && !c.cr.value.watcherOwned
    ensures Watch(c, spec) == c
  {
  }

  // Otherwise a watcher pass brings the adoption in line with the label: present,
  // watcher-owned and with the projected spec, or on its way out.
  lemma WatcherFollowsLabel(c: Cluster, spec: Spec)
    requires c.cr.None? || c.cr.value.watcherOwned
    ensures var d := Watch(c, spec);
      && d == c.(cr := d.cr, nextUid := d.nextUid)
      && (Triggered(c) ==> d.cr.Some? && d.cr.value.watcherOwned && d.cr.value.spec == spec)
      && (!Triggered(c) ==> d.cr.None? || (c.cr.Some? && d.cr.value == c.cr.value.(deleting := true)))
  {
  }

  // Steps that neither apply the trigger label nor create an adoption by hand.
  predicate NoTrigger(s: Step) { !s.UserCreates? && s != UserLabels(Some("enabled")) }

  ghost predicate Untriggered(c: Cluster) { c.dep.Some? && !Triggered(c) }

  lemma OthersStayQuiet(c: Cluster, s: Step)
    requires Untriggered(c) && NoTrigger(s)
    ensures var d := Others(c, s); Untriggered(d) && d.nextUid == c.nextUid && (c.cr.None? ==> d.cr.None?)
  {
  }

  lemma QuietStep(o: Origin, w: World, s: Step)
    requires Inv(o, w.c) && Untriggered(w.c) && NoTrigger(s)
    ensures var d := Apply(w, s).c; Untriggered(d) && d.nextUid == w.c.nextUid && (w.c.cr.None? ==> d.cr.None?)
  {
    OthersStayQuiet(w.c, s);
    if s.ReconcileStep? && w.c.cr.Some? {
      if w.c.cr.value.deleting {
        ReleasePassInv(o, w, s.p);
        ReleaseKeepsNoTrigger(w.c, w.c.cr.value, s.p);
      } else {
        AdoptPassInv(o, w, s.p);
        var a := w.c.cr.value.(finalizers := BOTH);
        AdoptKeepsMarks(w.c.(cr := Some(a)), a, s.p);
      }
    }
    hide Inv, AdoptFlow, ReleaseFlow, Others, Extends;
  }

  // Managed by the operator, owned by somebody other than Knative, or not internal.
  ghost predicate Untouchable(s: Service) {
    !FromKnative(s) && (s.managed || s.owner.Some? || s.spec.kind != ClusterIP)
  }

  // The trigger label and an untouchable Service survive from c to d.
  ghost predicate KeepsMarks(c: Cluster, d: Cluster) {
    && (c.dep.Some? ==> d.dep.Some? && d.dep.value.trigger == c.dep.value.trigger)
    && (c.svc.Some? && Untouchable(c.svc.value) ==> d.svc == c.svc)
  }

  lemma SwapKeepsMarks(f: Flow, p: Pass)
    ensures var g := SwapStage(f, p); KeepsMarks(f.c, g.c) && (g.go ==> g.c == f.c)
  {
  }

  lemma LateStagesKeepMarks(f: Flow, p: Pass, desired: KService)
    ensures KeepsMarks(f.c, ApplyStage(f, p, desired).c)
    ensures f.c.dep.Some? ==> KeepsMarks(f.c, QuiesceStage(f, p).c)
  {
  }

  lemma AdoptKeepsMarks(c: Cluster, a: Adoption, p: Pass)
    ensures KeepsMarks(c, AdoptFlow(c, a, p).c)
  {
    var f1 := SwapStage(Flow(c, a.status.snapshot, true, []), p);
    SwapKeepsMarks(Flow(c, a.status.snapshot, true, []), p);
    TrafficKeepsDep(f1, p, a.spec);
    var f2 := TrafficStage(f1, p, a.spec);
    if Translates(c, a.spec, p.report.probe) {
      var desired := Translated(c, a.spec, p.report.probe).value;
      LateStagesKeepMarks(f2, p, desired);
      LateStagesKeepMarks(ApplyStage(f2, p, desired), p, desired);
    }
    hide TrafficStage, SwapStage, ApplyStage, QuiesceStage, Translated;
  }

  lemma SourcePhaseKeepsNoTrigger(f: Flow, p: Pass)
    requires Untriggered(f.c)
    ensures Untriggered(SourcePhase(f, p).c)
  {
  }

  lemma ReleaseKeepsNoTrigger(c: Cluster, a: Adoption, p: Pass)
    requires Untriggered(c)
    ensures Untriggered(ReleaseFlow(c, a, p).c)
  {
    var f0 := Flow(c, a.status.snapshot, true, []);
    ServicePhaseFrame(f0, p);
    SourcePhaseKeepsNoTrigger(f0, p);
    SourcePhaseKeepsNoTrigger(ServicePhase(f0, p), p);
    hide ServicePhase, SourcePhase;
  }

  // Gone, or going.
  predicate Doomed(k: Option<KSvc>) { k.None? || k.value.terminating }

  // What the Service phase leaves alone: the source, a Service that is not
  // Knative's, and whatever Knative has already removed.
  lemma ServicePhaseFrame(f: Flow, p: Pass)
    ensures var g := ServicePhase(f, p);
      && g.c.dep == f.c.dep && g.snapshot == f.snapshot
      && (f.c.ksvc.None? ==> g.c.ksvc.None?) && (Doomed(f.c.ksvc) || DeleteKSvc !in p.faults ==> Doomed(g.c.ksvc))
      && (!Derived(f.c) ==> !Derived(g.c) && (f.c.svc.Some? ==> g.c.svc == f.c.svc))
  {
    var f1 := CascadeStage(f, p);
    CascadeFrame(f, p);
    UndoTrafficFrame(f1, p);
    var f2 := UndoTrafficStage(f1, p);
    RebuildFrame(f2, p);
    hide CascadeStage, UndoTrafficStage, RebuildServiceStage;
  }

  lemma CascadeFrame(f: Flow, p: Pass)
    ensures var g := CascadeStage(f, p);
      && g.c == f.c.(ksvc := g.c.ksvc, svc := g.c.svc) && g.snapshot == f.snapshot
      && (f.c.ksvc.None? ==> g.c.ksvc.None?) && (Doomed(f.c.ksvc) || DeleteKSvc !in p.faults ==> Doomed(g.c.ksvc))
      && (!Derived(f.c) ==> g.c.svc == f.c.svc)
  {
  }

  lemma RebuildFrame(f: Flow, p: Pass)
    ensures var g := RebuildServiceStage(f, p);
      && g.c == f.c.(svc := g.c.svc) && g.snapshot == f.snapshot
      && (f.c.svc.Some? ==> g.c.svc == f.c.svc) && (f.c.svc.None? ==> !Derived(g.c))
  {
  }

  lemma UndoTrafficFrame(f: Flow, p: Pass)
    ensures var g := UndoTrafficStage(f, p);
      g.c == f.c.(vs := g.c.vs, dr := g.c.dr) && g.snapshot == f.snapshot && g.writes == f.writes
  {
    hide UndoAll;
  }

  lemma SourcePhaseFrame(f: Flow, p: Pass)
    ensures var g := SourcePhase(f, p); g.c == f.c.(dep := g.c.dep, cr := g.c.cr) && g.snapshot == f.snapshot
  {
  }

  lemma ReleaseFrame(c: Cluster, a: Adoption, p: Pass)
    ensures var d := ReleaseFlow(c, a, p).c;
      && (c.ksvc.None? ==> d.ksvc.None?) && (Doomed(c.ksvc) ==> Doomed(d.ksvc))
      && (RestoreService in a.finalizers && DeleteKSvc !in p.faults ==> Doomed(d.ksvc))
      && (!Derived(c) ==> !Derived(d) && (c.svc.Some? ==> d.svc == c.svc))
  {
    var f0 := Flow(c, a.status.snapshot, true, []);
    ServicePhaseFrame(f0, p);
    SourcePhaseFrame(f0, p);
    SourcePhaseFrame(ServicePhase(f0, p), p);
    hide ServicePhase, SourcePhase;
  }

  // Once the trigger label is gone, no interleaving of watcher and release passes
  // with anything else brings an adoption into being until a user asks for one.
  lemma {:induction false} NoReadoption(o: Origin, w: World, steps: seq<Step>)
    requires Inv(o, w.c) && Untriggered(w.c)
    requires forall i :: 0 <= i < |steps| ==> NoTrigger(steps[i])
    ensures var d := Run(w, steps).c;
      Untriggered(d) && d.nextUid == w.c.nextUid && (w.c.cr.None? ==> d.cr.None?)
    decreases |steps|
  {
    hide Inv, Apply, NoTrigger, Untriggered;
    if steps != [] {
      QuietStep(o, w, steps[0]);
      StepInv(o, w, steps[0]);
      NoReadoption(o, Apply(w, steps[0]), steps[1..]);
    }
  }

  lemma SourcePhaseTrigger(f: Flow, p: Pass)
    requires f.c.dep.Some? && f.c.cr.Some? && f.go
    ensures var g := SourcePhase(f, p);
      && g.c.dep.Some?
      && (g.c.cr.None? ==>
            g.c.dep.value.trigger == if SnapReplicas(f.snapshot).Some? then None else f.c.dep.value.trigger)
  {
  }

  lemma ReleasedTrigger(o: Origin, c: Cluster, a: Adoption, p: Pass)
    requires Inv(o, c) && c.cr == Some(a) && a.deleting && c.dep.Some? && ReleaseFlow(c, a, p).c.cr.None?
    ensures var d := ReleaseFlow(c, a, p).c;
      d.dep.Some? && d.dep.value.trigger == if SnapReplicas(a.status.snapshot).Some? then None else c.dep.value.trigger
  {
    var f0 := Flow(c, a.status.snapshot, true, []);
    hide Safe, ServiceSideRestored;
    if a.finalizers == BOTH { ServicePhaseSafe(o, f0, a, p); }
    ServicePhaseFrame(f0, p);
    var f1 := if RestoreService in a.finalizers then ServicePhase(f0, p) else f0;
    hide ServicePhase;
    if f1.go { SourcePhaseTrigger(f1, p); }
    hide SourcePhase;
  }

  // Release is meant to consume the trigger label, but it does so only when it has
  // replicas to restore: for a labelled Deployment, the watcher stays quiet after
  // a completed release exactly when replicas had been recorded.
  lemma ReleaseConsumesTriggerIff(o: Origin, w: World, p: Pass, spec: Spec)
    requires Inv(o, w.c) && w.c.cr.Some? && w.c.cr.value.deleting && Triggered(w.c)
    requires ReleasePass(w, p).c.cr.None?
    ensures Watch(ReleasePass(w, p).c, spec).cr.None?
        <==> SnapReplicas(w.c.cr.value.status.snapshot).Some?
  {
    hide Inv;
    ReleasedTrigger(o, w.c, w.c.cr.value, p);
    hide ReleaseFlow;
  }

  // Once a release with recorded replicas is through, the workload stays released,
  // whatever else runs, until a user asks for a new adoption.
  lemma ReleasedStaysReleased(o: Origin, w: World, p: Pass, steps: seq<Step>)
    requires Inv(o, w.c) && w.c.cr.Some? && w.c.cr.value.deleting && w.c.dep.Some?
    requires SnapReplicas(w.c.cr.value.status.snapshot).Some? && ReleasePass(w, p).c.cr.None?
    requires forall i :: 0 <= i < |steps| ==> NoTrigger(steps[i])
    ensures var d := Run(ReleasePass(w, p), steps).c; d.cr.None? && Untriggered(d)
  {
    ReleasedTrigger(o, w.c, w.c.cr.value, p);
    ReleasePassInv(o, w, p);
    hide Inv, ReleaseFlow, NoTrigger;
    NoReadoption(o, ReleasePass(w, p), steps);
  }

  lemma RunCons(w: World, s: Step, rest: seq<Step>)
    ensures Run(w, [s] + rest) == Run(Apply(w, s), rest)
  {
    assert ([s] + rest)[1..] == rest;
  }

  lemma BarelyAdopted(w: World, p: Pass)
    requires w.c.cr.Some? && !w.c.cr.value.deleting && w.c.cr.value.status.snapshot == None && p.faults == {GetSource}
    ensures var v := AdoptPass(w, p).c;
      && v == w.c.(cr := v.cr) && v.cr.Some? && v.cr.value.finalizers == BOTH && !v.cr.value.deleting
      && v.cr.value.status.snapshot == None
  {
  }

  lemma NothingToRestore(w: World, p: Pass)
    requires w.c.cr.Some? && w.c.cr.value.deleting && w.c.cr.value.finalizers == BOTH
    requires w.c.cr.value.status.snapshot == None && p.faults == {GetSource} && w.c.ksvc.None? && !Derived(w.c)
    ensures ReleasePass(w, p).c == w.c.(cr := None)
  {
    assert BOTH - {RestoreService} == {RestoreSource};
  }

  // A release before the source was ever quiesced is undone by the next watcher pass.
  lemma UnquiescedReleaseIsReadopted(c: Cluster, spec: Spec, p: Pass) returns (steps: seq<Step>)
    requires Initial(c) && Triggered(c) && p.faults == {GetSource}
    ensures Run(World(c, []), steps).c.cr.None?
    ensures var d := Apply(Run(World(c, []), steps), WatchStep(spec)).c;
      d.cr.Some? && d.cr.value.uid == c.nextUid + 1 && !d.cr.value.deleting
  {
    var w0 := World(c, []);
    var w1 := Apply(w0, WatchStep(spec));
    var w2 := Apply(w1, ReconcileStep(p));
    BarelyAdopted(w1, p);
    var w3 := Apply(w2, UserDeletes);
    NothingToRestore(w3, p);
    hide AdoptPass, ReleasePass;
    var tail := [ReconcileStep(p)] + [];
    RunCons(w3, ReconcileStep(p), []);
    RunCons(w2, UserDeletes, tail);
    RunCons(w1, ReconcileStep(p), [UserDeletes] + tail);
    steps := [WatchStep(spec)] + ([ReconcileStep(p)] + ([UserDeletes] + tail));
    RunCons(w0, WatchStep(spec), steps[1..]);
  }

  // ---- Services the operator must not touch ----

  // Release marks the Service it rebuilds as its own. From then on no step of any
  // run touches that Service, and the same holds of every Service that is refused.
  lemma {:induction false} UntouchableServiceStays(w: World, steps: seq<Step>)
    requires w.c.svc.Some? && Untouchable(w.c.svc.value)
    ensures Run(w, steps).c.svc == w.c.svc
    decreases |steps|
  {
    if steps != [] {
      UntouchableStep(w, steps[0]);
      hide Apply;
      UntouchableServiceStays(Apply(w, steps[0]), steps[1..]);
    }
  }

  lemma UntouchableStep(w: World, s: Step)
    requires w.c.svc.Some? && Untouchable(w.c.svc.value)
    ensures Apply(w, s).c.svc == w.c.svc
  {
    if s.ReconcileStep? && w.c.cr.Some? {
      var a := w.c.cr.value;
      ReleaseFrame(w.c, a, s.p);
      AdoptKeepsMarks(w.c.(cr := Some(a.(finalizers := BOTH))), a.(finalizers := BOTH), s.p);
    }
    hide AdoptFlow, ReleaseFlow;
  }

  // A refused Service keeps its workload out of Knative for good: no run ever
  // creates the KSvc.
  lemma {:induction false} RefusedNeverAdopted(w: World, steps: seq<Step>)
    requires w.c.svc.Some? && Untouchable(w.c.svc.value) && !w.c.svc.value.managed && w.c.ksvc.None?
    ensures Run(w, steps).c.svc == w.c.svc && Run(w, steps).c.ksvc.None?
    decreases |steps|
  {
    if steps != [] {
      UntouchableStep(w, steps[0]);
      RefusedStep(w, steps[0]);
      hide Apply;
      RefusedNeverAdopted(Apply(w, steps[0]), steps[1..]);
    }
  }

  lemma RefusedStep(w: World, s: Step)
    requires w.c.svc.Some? && Untouchable(w.c.svc.value) && !w.c.svc.value.managed && w.c.ksvc.None?
    ensures Apply(w, s).c.ksvc.None?
  {
    if s.ReconcileStep? && w.c.cr.Some? {
      var a := w.c.cr.value;
      ReleaseFrame(w.c, a, s.p);
      RefusedAdopt(w.c.(cr := Some(a.(finalizers := BOTH))), a.(finalizers := BOTH), s.p);
    }
    hide AdoptFlow, ReleaseFlow;
  }

  lemma RefusedAdopt(c: Cluster, a: Adoption, p: Pass)
    requires Classify(c.svc) == SwapRefused
    ensures AdoptFlow(c, a, p).c == c
  {
  }
}
