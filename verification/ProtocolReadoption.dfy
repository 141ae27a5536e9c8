// What a second adoption does with the Service that a release has rebuilt.
module ProtocolReadoption {
  import opened Basics
  import opened Translator
  import opened Protocol
  import opened ProtocolInvariants
  import opened ProtocolTheorems
  import opened ProtocolProgress
  import opened ProtocolRelease

  // A Service that is not Knative's holds the name.
  ghost predicate InPlace(c: Cluster) { c.svc.Some? && !FromKnative(c.svc.value) }

  // A release pass that puts a Service where there was none, or Knative's.
  ghost predicate Rebuilds(w: World, s: Step) {
    s.ReconcileStep? && w.c.cr.Some? && w.c.cr.value.deleting && !InPlace(w.c) && InPlace(Apply(w, s).c)
  }

  ghost predicate RebuiltIn(w: World, steps: seq<Step>)
    decreases |steps|
  {
    steps != [] && (Rebuilds(w, steps[0]) || RebuiltIn(Apply(w, steps[0]), steps[1..]))
  }

  lemma LateStagesKeepSvc(f: Flow, p: Pass, desired: KService)
    ensures ApplyStage(f, p, desired).c.svc == f.c.svc && ApplyStage(f, p, desired).c.dep == f.c.dep
    ensures f.c.dep.Some? ==> QuiesceStage(f, p).c.svc == f.c.svc
  {
  }

  lemma AdoptOnlyRemoves(c: Cluster, a: Adoption, p: Pass)
    ensures AdoptFlow(c, a, p).c.svc == c.svc || AdoptFlow(c, a, p).c.svc == None
  {
    var f1 := SwapStage(Flow(c, a.status.snapshot, true, []), p);
    SwapOnlyRemoves(Flow(c, a.status.snapshot, true, []), p);
    TrafficKeepsDep(f1, p, a.spec);
    if Translates(c, a.spec, p.report.probe) {
      var f2 := TrafficStage(f1, p, a.spec);
      var desired := Translated(c, a.spec, p.report.probe).value;
      LateStagesKeepSvc(f2, p, desired);
      LateStagesKeepSvc(ApplyStage(f2, p, desired), p, desired);
    }
    hide TrafficStage, SwapStage, ApplyStage, QuiesceStage, Translated;
  }

  lemma SwapOnlyRemoves(f: Flow, p: Pass)
    ensures var g := SwapStage(f, p); (g.c.svc == f.c.svc || g.c.svc == None) && g.c.dep == f.c.dep
  {
  }

  lemma ReleaseMarks(c: Cluster, a: Adoption, p: Pass)
    requires !InPlace(c)
    ensures var d := ReleaseFlow(c, a, p).c; InPlace(d) ==> d.svc.value.managed
  {
    var f0 := Flow(c, a.status.snapshot, true, []);
    ServicePhaseMarks(f0, p);
    SourcePhaseFrame(f0, p);
    SourcePhaseFrame(ServicePhase(f0, p), p);
    hide ServicePhase, SourcePhase;
  }

  lemma ServicePhaseMarks(f: Flow, p: Pass)
    requires !InPlace(f.c)
    ensures var d := ServicePhase(f, p).c; InPlace(d) ==> d.svc.value.managed
  {
    var f1 := CascadeStage(f, p);
    UndoTrafficFrame(f1, p);
    hide UndoTrafficStage;
  }

  lemma PlainStep(w: World, s: Step)
    requires InPlace(w.c) ==> Plain(w.c.svc.value)
    ensures var d := Apply(w, s).c;
      if Rebuilds(w, s) then InPlace(d) && d.svc.value.managed else InPlace(d) ==> Plain(d.svc.value)
  {
    if s.ReconcileStep? && w.c.cr.Some? {
      var a := w.c.cr.value;
      if a.deleting {
        ReleaseFrame(w.c, a, s.p);
        if !InPlace(w.c) { ReleaseMarks(w.c, a, s.p); }
      } else {
        AdoptOnlyRemoves(w.c.(cr := Some(a.(finalizers := BOTH))), a.(finalizers := BOTH), s.p);
      }
    }
    hide AdoptFlow, ReleaseFlow;
  }

  // Starting from a user's ordinary Service, whatever Service is in place later is
  // the operator's exactly when some release has rebuilt it, and ordinary otherwise.
  lemma {:induction false} ManagedIffRebuilt(w: World, steps: seq<Step>)
    requires InPlace(w.c) ==> Plain(w.c.svc.value)
    ensures var d := Run(w, steps).c;
      InPlace(d) ==> if RebuiltIn(w, steps) then d.svc.value.managed else Plain(d.svc.value)
    decreases |steps|
  {
    if steps != [] {
      PlainStep(w, steps[0]);
      hide Apply, Rebuilds;
      if Rebuilds(w, steps[0]) {
        UntouchableServiceStays(Apply(w, steps[0]), steps[1..]);
      } else {
        ManagedIffRebuilt(Apply(w, steps[0]), steps[1..]);
      }
    }
  }

  // A later adoption is able to take the Service over exactly when no release has
  // rebuilt it on the way.
  lemma TakesOverIff(c: Cluster, steps: seq<Step>, p: Pass)
    requires Initial(c) && c.svc.Some? && Plain(c.svc.value) && p.faults == {}
    requires var d := Run(World(c, []), steps).c;
      InPlace(d) && d.cr.Some? && !d.cr.value.deleting && Translates(d, d.cr.value.spec, p.report.probe)
    ensures AdoptPass(Run(World(c, []), steps), p).c.svc == None <==> !RebuiltIn(World(c, []), steps)
  {
    var w := Run(World(c, []), steps);
    ManagedIffRebuilt(World(c, []), steps);
    hide RebuiltIn, Run, Translated;
    if RebuiltIn(World(c, []), steps) {
      UntouchableStep(w, ReconcileStep(p));
    } else {
      TakeoverPass(w, p);
    }
    hide AdoptPass;
  }

  // Adoption and release of a workload with an ordinary Service, without any
  // failing call, and a second adoption.
  function Cycle(spec: Spec, p: Pass): seq<Step> {
    [UserCreates(spec)] + ([ReconcileStep(p)] + ([UserDeletes] + ([ReconcileStep(p)] + ([UserCreates(spec)] + []))))
  }

  lemma TakenOver(c: Cluster, spec: Spec, p: Pass)
    requires Initial(c) && c.svc.Some? && Plain(c.svc.value) && p.faults == {} && Translates(c, spec, p.report.probe)
    ensures var w2 := Apply(Apply(World(c, []), UserCreates(spec)), ReconcileStep(p));
      && w2.c.cr.Some? && !w2.c.cr.value.deleting && w2.c.cr.value.finalizers == BOTH
      && w2.c == c.(svc := None, cr := w2.c.cr, nextUid := c.nextUid + 1)
  {
    var w1 := Apply(World(c, []), UserCreates(spec));
    assert w1.c == CreateAdoption(c, false, spec);
    assert Translates(w1.c, spec, p.report.probe);
    hide Translated;
    TakeoverPass(w1, p);
    hide AdoptPass;
  }

  lemma FirstHalf(c: Cluster, spec: Spec, p: Pass)
    requires Initial(c) && c.svc.Some? && Plain(c.svc.value) && p.faults == {} && Translates(c, spec, p.report.probe)
    ensures var w3 := Apply(Apply(Apply(World(c, []), UserCreates(spec)), ReconcileStep(p)), UserDeletes);
      && Inv(OriginOf(c), w3.c) && w3.c.cr.Some? && w3.c.cr.value.deleting && w3.c.svc == None && w3.c.ksvc.None?
      && w3.c == c.(svc := None, cr := w3.c.cr, nextUid := c.nextUid + 1)
  {
    hide Inv, Translated, Apply, Initial, Plain;
    var o, w0 := OriginOf(c), World(c, []);
    InitialInv(c);
    TakenOver(c, spec, p);
    var w1 := Apply(w0, UserCreates(spec));
    var w2 := Apply(w1, ReconcileStep(p));
    StepInv(o, w0, UserCreates(spec));
    StepInv(o, w1, ReconcileStep(p));
    StepInv(o, w2, UserDeletes);
    Marked(w2);
    InitialHasNoKSvc(c);
  }

  lemma InitialHasNoKSvc(c: Cluster)
    requires Initial(c)
    ensures c.ksvc.None?
  {
  }

  lemma Marked(w: World)
    requires w.c.cr.Some? && w.c.cr.value.finalizers == BOTH
    ensures Apply(w, UserDeletes).c == w.c.(cr := Some(w.c.cr.value.(deleting := true)))
  {
    hide Reconcile;
  }

  lemma SecondHalf(o: Origin, w: World, p: Pass)
    requires Inv(o, w.c) && w.c.cr.Some? && w.c.cr.value.deleting && w.c.svc == None && w.c.ksvc.None? && p.faults == {}
    requires o.svc.Some?
    ensures var v := Apply(w, ReconcileStep(p));
      Rebuilds(w, ReconcileStep(p)) && v.c.cr.None? && v.c.nextUid == w.c.nextUid
  {
    CleanPassFinishesIff(o, w, p);
    ReleasePassInv(o, w, p);
    hide ReleasePass, ObjectsSafe, DepSafe;
  }

  // After that cycle the second adoption finds the rebuilt Service and leaves it.
  lemma RebuiltServiceIsKept(c: Cluster, spec: Spec, p: Pass)
    requires Initial(c) && c.svc.Some? && Plain(c.svc.value) && p.faults == {} && Translates(c, spec, p.report.probe)
    ensures var w := Run(World(c, []), Cycle(spec, p));
      && w.c.cr.Some? && w.c.cr.value.uid == c.nextUid + 1 && InPlace(w.c)
      && Apply(w, ReconcileStep(p)).c.svc == w.c.svc
  {
    var w0 := World(c, []);
    var w1 := Apply(w0, UserCreates(spec));
    var w2 := Apply(w1, ReconcileStep(p));
    var w3 := Apply(w2, UserDeletes);
    var w4 := Apply(w3, ReconcileStep(p));
    FirstHalf(c, spec, p);
    SecondHalf(OriginOf(c), w3, p);
    PlainStep(w3, ReconcileStep(p));
    RunCons(w4, UserCreates(spec), []);
    RunCons(w3, ReconcileStep(p), [UserCreates(spec)] + []);
    RunCons(w2, UserDeletes, [ReconcileStep(p)] + ([UserCreates(spec)] + []));
    RunCons(w1, ReconcileStep(p), [UserDeletes] + ([ReconcileStep(p)] + ([UserCreates(spec)] + [])));
    RunCons(w0, UserCreates(spec),
            [ReconcileStep(p)] + ([UserDeletes] + ([ReconcileStep(p)] + ([UserCreates(spec)] + []))));
    hide Inv, Reconcile, Translated;
    UntouchableStep(Apply(w4, UserCreates(spec)), ReconcileStep(p));
  }
}
