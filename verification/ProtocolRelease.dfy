// When release ends: exactly when a pass completes, what it can be repeated after,
// and that it terminates.
module ProtocolRelease {
  import opened Basics
  import opened Traffic
  import opened TrafficTheorems
  import opened Protocol
  import opened ProtocolInvariants
  import opened ProtocolTheorems

  // ---- one pass ----

  ghost predicate AllDecode(snaps: seq<ObjectSnapshot>, n: nat)
    requires n <= |snaps|
  {
    forall i :: 0 <= i < n ==> Decodes(snaps[i].spec)
  }

  ghost predicate Restorable(s: Option<Snapshot>) {
    AllDecode(SnapVS(s), |SnapVS(s)|) && AllDecode(SnapDR(s), |SnapDR(s)|)
  }

  // What was recorded can be restored, because only original specs are recorded.
  lemma SnapshotDecodes(o: Origin, c: Cluster, s: Option<Snapshot>)
    requires Typed(o) && Safe(o, c, s)
    ensures Restorable(s)
  {
    hide SpecOnly;
  }

  // In every reachable state everything that is recorded can be restored.
  lemma RecordedIsRestorable(c: Cluster, steps: seq<Step>)
    requires Initial(c) && Run(World(c, []), steps).c.cr.Some?
    ensures Restorable(Run(World(c, []), steps).c.cr.value.status.snapshot)
  {
    var d := Run(World(c, []), steps).c;
    InitialInv(c);
    RunInv(OriginOf(c), World(c, []), steps);
    hide Run, Safe, Typed, Restorable;
    SnapshotDecodes(OriginOf(c), d, d.cr.value.status.snapshot);
  }

  lemma {:induction false} UndoAllCompletes(u: Undo, kind: TrafficKind, snaps: seq<ObjectSnapshot>, n: nat)
    requires n <= |snaps| && u.ok && AllDecode(snaps, |snaps|)
    ensures UndoAll(u, kind, snaps, n, {}).ok
  {
    if n > 0 { UndoAllCompletes(u, kind, snaps, n - 1); }
  }

  // Traffic is undone unless a call fails.
  lemma UndoTrafficCompletes(o: Origin, f: Flow, p: Pass)
    requires Typed(o) && Safe(o, f.c, f.snapshot) && f.go && p.faults == {}
    ensures UndoTrafficStage(f, p).go
  {
    var vs, dr := SnapVS(f.snapshot), SnapDR(f.snapshot);
    SnapshotDecodes(o, f.c, f.snapshot);
    UndoAllCompletes(Undo(f.c.vs, true), VirtualService, vs, |vs|);
    UndoAllCompletes(Undo(f.c.dr, true), DestinationRule, dr, |dr|);
    hide UndoAll, AllDecode, Safe, Typed;
  }

  // The KSvc and the Service derived from it are gone, or go during pass p.
  ghost predicate ChildrenGone(c: Cluster, p: Pass) {
    (c.ksvc.None? || p.ksvcGone) && (!Derived(c) || p.derivedGone)
  }

  lemma CleanServicePhase(o: Origin, f: Flow, p: Pass)
    requires Typed(o) && Safe(o, f.c, f.snapshot) && f.go && f.c.cr.Some? && p.faults == {}
    ensures ServicePhase(f, p).go <==> ChildrenGone(f.c, p)
  {
    var f1 := CascadeStage(f, p);
    CascadeSafe(o, f, p);
    assert f1.go <==> ChildrenGone(f.c, p);
    if f1.go { UndoTrafficCompletes(o, f1, p); }
    UndoTrafficFrame(f1, p);
    hide Safe, Typed, UndoTrafficStage, CascadeStage;
  }

  // Without failing calls, one pass drops all finalizers that are left exactly when
  // the children are gone or the Service phase was over before.
  lemma CleanPassFinishesIff(o: Origin, w: World, p: Pass)
    requires Inv(o, w.c) && w.c.cr.Some? && w.c.cr.value.deleting && p.faults == {}
    ensures ReleasePass(w, p).c.cr.None?
       <==> (RestoreService in w.c.cr.value.finalizers ==> ChildrenGone(w.c, p))
  {
    var a := w.c.cr.value;
    var f0 := Flow(w.c, a.status.snapshot, true, []);
    CleanServicePhase(o, f0, p);
    if a.finalizers == BOTH { ServicePhaseSafe(o, f0, a, p); }
    hide ServicePhase, Safe, Typed, ServiceSideRestored, ChildrenGone;
    assert {RestoreSource} - {RestoreSource} == {};
  }

  // ---- re-running a completed phase ----

  lemma {:induction false} UndoAllAgain(u: Undo, kind: TrafficKind, snaps: seq<ObjectSnapshot>, n: nat,
                                        faults: set<Call>)
    requires n <= |snaps| && UndoneUpTo(u.objs, snaps, n)
    ensures UndoAll(u, kind, snaps, n, faults).objs == u.objs
  {
    if n > 0 { UndoAllAgain(u, kind, snaps, n - 1, faults); }
  }

  lemma UndoTrafficAgain(o: Origin, f: Flow, p: Pass, again: Pass)
    requires Safe(o, f.c, f.snapshot) && UndoTrafficStage(f, p).go
    ensures UndoTrafficStage(UndoTrafficStage(f, p), again).c == UndoTrafficStage(f, p).c
  {
    var vs, dr := SnapVS(f.snapshot), SnapDR(f.snapshot);
    UndoAllSafe(o.vs, Undo(f.c.vs, true), VirtualService, vs, |vs|, p.faults);
    UndoAllSafe(o.dr, Undo(f.c.dr, true), DestinationRule, dr, |dr|, p.faults);
    hide Safe, ObjectsSafe, UndoAll, UndoneUpTo;
    var g := UndoTrafficStage(f, p);
    UndoAllAgain(Undo(g.c.vs, true), VirtualService, vs, |vs|, again.faults);
    UndoAllAgain(Undo(g.c.dr, true), DestinationRule, dr, |dr|, again.faults);
  }

  lemma CascadeAgain(f: Flow, p: Pass, again: Pass)
    requires f.go && CascadeStage(f, p).go
    ensures CascadeStage(CascadeStage(f, p), again).c == CascadeStage(f, p).c
  {
  }

  lemma RebuildAgain(f: Flow, p: Pass, again: Pass)
    requires f.go && RebuildServiceStage(f, p).go
    ensures RebuildServiceStage(RebuildServiceStage(f, p), again).c == RebuildServiceStage(f, p).c
  {
  }

  lemma ReleaseSourceAgain(f: Flow, p: Pass, again: Pass)
    requires f.go && ReleaseSourceStage(f, p).go
    ensures ReleaseSourceStage(ReleaseSourceStage(f, p), again).c == ReleaseSourceStage(f, p).c
  {
  }

  // Each phase of release, once completed, changes nothing when it runs again,
  // however that second run fares.
  lemma CompletedPhasesRerun(o: Origin, f: Flow, p: Pass, again: Pass)
    requires Safe(o, f.c, f.snapshot) && f.go
    ensures CascadeStage(f, p).go ==> CascadeStage(CascadeStage(f, p), again).c == CascadeStage(f, p).c
    ensures UndoTrafficStage(f, p).go ==> UndoTrafficStage(UndoTrafficStage(f, p), again).c == UndoTrafficStage(f, p).c
    ensures var g := RebuildServiceStage(f, p); g.go ==> RebuildServiceStage(g, again).c == g.c
    ensures var g := ReleaseSourceStage(f, p); g.go ==> ReleaseSourceStage(g, again).c == g.c
  {
    if CascadeStage(f, p).go { CascadeAgain(f, p, again); }
    if UndoTrafficStage(f, p).go { UndoTrafficAgain(o, f, p, again); }
    if RebuildServiceStage(f, p).go { RebuildAgain(f, p, again); }
    if ReleaseSourceStage(f, p).go { ReleaseSourceAgain(f, p, again); }
    hide CascadeStage, UndoTrafficStage, RebuildServiceStage, ReleaseSourceStage, Safe;
  }

  ghost predicate Here(c: Cluster, u: nat) { c.cr.Some? && c.cr.value.uid == u }

  // ---- termination over runs ----

  // Adoption u, if it is still there, is on its way out: stage 1 says
  // its KSvc is gone or terminating, stage 2 that it is gone, stage 3 that the derived
  // Service is gone as well.
  ghost predicate Leaving(c: Cluster, u: nat, stage: nat) {
    && u < c.nextUid
    && (Here(c, u) ==>
          && c.cr.value.deleting
          && (stage >= 1 ==> Doomed(c.ksvc))
          && (stage >= 2 ==> c.ksvc.None?)
          && (stage >= 3 ==> !Derived(c)))
  }

  // The steps that move a release on: the operator's own delete, Knative removing a
  // terminating KSvc, and Knative removing the Service that was derived from it.
  predicate Advances(s: Step, stage: nat) {
    match stage
    case 0 => s.ReconcileStep? && DeleteKSvc !in s.p.faults
    case 1 => s.KSvcRemoved?
    case 2 => s.KnativeDropsDerived?
    case _ => false
  }

  lemma OthersLeave(c: Cluster, s: Step, u: nat, stage: nat)
    requires Leaving(c, u, stage) && !s.ReconcileStep?
    ensures Leaving(Others(c, s), u, stage)
    ensures Advances(s, stage) ==> Leaving(Others(c, s), u, stage + 1)
  {
  }

  lemma PassLeaves(o: Origin, w: World, p: Pass, u: nat, stage: nat)
    requires Inv(o, w.c) && Leaving(w.c, u, stage) && Here(w.c, u)
    ensures var d := Apply(w, ReconcileStep(p)).c;
      Leaving(d, u, stage) && (stage == 0 && DeleteKSvc !in p.faults ==> Leaving(d, u, 1))
  {
    ReleasePassInv(o, w, p);
    ReleaseFrame(w.c, w.c.cr.value, p);
    RestoredIsDoomed(o, w.c);
    hide Inv, Extends, ReleaseFlow, AdoptPass, KnativeOwned;
  }

  lemma RestoredIsDoomed(o: Origin, c: Cluster)
    requires Inv(o, c) && c.cr.Some? && c.cr.value.deleting
    ensures RestoreService in c.cr.value.finalizers || (c.ksvc.None? && !Derived(c))
    ensures c.cr.value.finalizers == BOTH || c.cr.value.finalizers == {RestoreSource}
  {
    hide Safe;
  }

  lemma LeavingStep(o: Origin, w: World, s: Step, u: nat, stage: nat)
    requires Inv(o, w.c) && Leaving(w.c, u, stage)
    ensures Leaving(Apply(w, s).c, u, stage)
    ensures Advances(s, stage) ==> Leaving(Apply(w, s).c, u, stage + 1)
  {
    StepContinues(o, w, s, u);
    if !s.ReconcileStep? {
      OthersLeave(w.c, s, u, stage);
    } else if Here(w.c, u) {
      PassLeaves(o, w, s.p, u, stage);
    }
    hide Inv, Extends, Reconcile, Others;
  }

  lemma {:induction false} LeavingRun(o: Origin, w: World, steps: seq<Step>, u: nat, stage: nat)
    requires Inv(o, w.c) && Leaving(w.c, u, stage)
    ensures Inv(o, Run(w, steps).c) && Leaving(Run(w, steps).c, u, stage)
    decreases |steps|
  {
    hide Inv, Apply, Leaving;
    if steps != [] {
      StepInv(o, w, steps[0]);
      LeavingStep(o, w, steps[0], u, stage);
      LeavingRun(o, Apply(w, steps[0]), steps[1..], u, stage);
    }
  }

  // Any run, then one advancing step.
  lemma LeavingOn(o: Origin, w: World, steps: seq<Step>, s: Step, u: nat, stage: nat)
    requires Inv(o, w.c) && Leaving(w.c, u, stage) && Advances(s, stage)
    ensures var v := Apply(Run(w, steps), s); Inv(o, v.c) && Leaving(v.c, u, stage + 1)
  {
    hide Inv, Apply, Leaving, Advances;
    LeavingRun(o, w, steps, u, stage);
    StepInv(o, Run(w, steps), s);
    LeavingStep(o, Run(w, steps), s, u, stage);
  }

  lemma LastPass(o: Origin, w: World, u: nat, p: Pass)
    requires Inv(o, w.c) && Leaving(w.c, u, 3) && p.faults == {}
    ensures var d := Apply(w, ReconcileStep(p)).c; u < d.nextUid && !Here(d, u)
  {
    StepContinues(o, w, ReconcileStep(p), u);
    if Here(w.c, u) { CleanPassFinishesIff(o, w, p); }
    hide Inv, Extends, ReleasePass, AdoptPass;
  }

  // Whatever else happens in between, in whatever order and with whatever failures:
  // after a pass whose delete goes through, the removal of the KSvc and that of the
  // derived Service, the first pass without failing calls ends the release, and the
  // adoption never comes back.
  lemma ReleaseTerminates(o: Origin, w: World, u: nat, s1: seq<Step>, d: Pass, s2: seq<Step>, s3: seq<Step>,
                          s4: seq<Step>, p: Pass, s5: seq<Step>)
    requires Inv(o, w.c) && Here(w.c, u) && w.c.cr.value.deleting
    requires DeleteKSvc !in d.faults && p.faults == {}
    ensures var v1 := Apply(Run(w, s1), ReconcileStep(d));
      var v2 := Apply(Run(v1, s2), KSvcRemoved);
      var v3 := Apply(Run(v2, s3), KnativeDropsDerived);
      var v4 := Apply(Run(v3, s4), ReconcileStep(p));
      !Here(Run(v4, s5).c, u)
  {
    assert Leaving(w.c, u, 0);
    hide Inv, Apply, Leaving, Extends;
    LeavingOn(o, w, s1, ReconcileStep(d), u, 0);
    var v1 := Apply(Run(w, s1), ReconcileStep(d));
    LeavingOn(o, v1, s2, KSvcRemoved, u, 1);
    var v2 := Apply(Run(v1, s2), KSvcRemoved);
    LeavingOn(o, v2, s3, KnativeDropsDerived, u, 2);
    var v3 := Apply(Run(v2, s3), KnativeDropsDerived);
    LeavingRun(o, v3, s4, u, 3);
    StepInv(o, Run(v3, s4), ReconcileStep(p));
    LastPass(o, Run(v3, s4), u, p);
    SnapshotsAreWrittenOnce(o, Apply(Run(v3, s4), ReconcileStep(p)), s5, u);
  }

  // ---- the measure ----

  ghost function FinalizersLeft(c: Cluster, u: nat): nat {
    if Here(c, u) then |c.cr.value.finalizers| else 0
  }

  // What the environment and the operator's delete still have to do: delete the
  // KSvc, remove it, and remove the Service derived from it, which Knative may
  // derive again for as long as there is a KSvc.
  ghost function ChildrenLeft(c: Cluster, u: nat): nat {
    if !Here(c, u) then 0
    else if c.ksvc.Some? then (if c.ksvc.value.terminating then 2 else 3)
    else if Derived(c) then 1 else 0
  }

  lemma TwoFinalizers()
    ensures |BOTH| == 2 && |{RestoreSource}| == 1
  {
    assert BOTH == {RestoreService} + {RestoreSource};
  }

  // While u is being released no step of anybody adds to either count.
  lemma MeasureNeverGrows(o: Origin, w: World, s: Step, u: nat)
    requires Inv(o, w.c) && Here(w.c, u) && w.c.cr.value.deleting
    ensures FinalizersLeft(Apply(w, s).c, u) <= FinalizersLeft(w.c, u)
    ensures ChildrenLeft(Apply(w, s).c, u) <= ChildrenLeft(w.c, u)
  {
    if s.ReconcileStep? {
      PassMeasure(o, w, s.p, u);
    } else {
      OthersMeasure(w.c, s, u);
    }
    hide Inv, FinalizersLeft, ChildrenLeft, Reconcile, Others;
  }

  lemma OthersMeasure(c: Cluster, s: Step, u: nat)
    requires Here(c, u) && c.cr.value.deleting && !s.ReconcileStep?
    ensures FinalizersLeft(Others(c, s), u) <= FinalizersLeft(c, u)
    ensures ChildrenLeft(Others(c, s), u) <= ChildrenLeft(c, u)
  {
  }

  lemma PassFinalizers(o: Origin, w: World, p: Pass, u: nat)
    requires Inv(o, w.c) && Here(w.c, u) && w.c.cr.value.deleting
    ensures FinalizersLeft(Apply(w, ReconcileStep(p)).c, u) <= FinalizersLeft(w.c, u)
  {
    ReleasePassInv(o, w, p);
    var d := ReleasePass(w, p).c;
    RestoredIsDoomed(o, w.c);
    if d.cr.Some? { RestoredIsDoomed(o, d); }
    if w.c.cr.value.finalizers == {RestoreSource} { PassKeepsSourceOnly(o, w, p); }
    TwoFinalizers();
    hide Inv, ReleasePass, AdoptPass;
  }

  lemma PassMeasure(o: Origin, w: World, p: Pass, u: nat)
    requires Inv(o, w.c) && Here(w.c, u) && w.c.cr.value.deleting
    ensures var d := Apply(w, ReconcileStep(p)).c;
      && FinalizersLeft(d, u) <= FinalizersLeft(w.c, u) && ChildrenLeft(d, u) <= ChildrenLeft(w.c, u)
      && (DeleteKSvc !in p.faults && w.c.ksvc.Some? && !w.c.ksvc.value.terminating ==>
            ChildrenLeft(d, u) < ChildrenLeft(w.c, u))
  {
    PassFinalizers(o, w, p, u);
    ReleaseFrame(w.c, w.c.cr.value, p);
    RestoredIsDoomed(o, w.c);
    hide Inv, ReleaseFlow, AdoptPass, KnativeOwned, FinalizersLeft;
  }

  // A finalizer that is gone does not come back.
  lemma PassKeepsSourceOnly(o: Origin, w: World, p: Pass)
    requires Inv(o, w.c) && w.c.cr.Some? && w.c.cr.value.deleting && w.c.cr.value.finalizers == {RestoreSource}
    ensures var d := ReleasePass(w, p).c; d.cr.Some? ==> d.cr.value.finalizers == {RestoreSource}
  {
    SourcePhaseDrops(Flow(w.c, w.c.cr.value.status.snapshot, true, []), p);
    hide Inv, ServicePhase, SourcePhase;
  }

  lemma SourcePhaseDrops(f: Flow, p: Pass)
    requires f.c.cr.Some? && f.c.cr.value.finalizers == {RestoreSource}
    ensures var g := SourcePhase(f, p).c; g.cr == f.c.cr || g.cr == None
  {
    assert {RestoreSource} - {RestoreSource} == {};
  }

  ghost predicate Falls(c: Cluster, d: Cluster, u: nat) {
    FinalizersLeft(d, u) < FinalizersLeft(c, u)
    || (FinalizersLeft(d, u) == FinalizersLeft(c, u) && ChildrenLeft(d, u) < ChildrenLeft(c, u))
  }

  // What has to happen next for release to move on.
  function NextStep(c: Cluster, p: Pass): Step {
    if c.ksvc.Some? then (if c.ksvc.value.terminating then KSvcRemoved else ReconcileStep(p))
    else if Derived(c) then KnativeDropsDerived
    else ReconcileStep(p)
  }

  // That step exists in every state of a release, and the measure falls with it.
  lemma ReleaseProgress(o: Origin, w: World, u: nat, p: Pass)
    requires Inv(o, w.c) && Here(w.c, u) && w.c.cr.value.deleting && p.faults == {}
    ensures Falls(w.c, Apply(w, NextStep(w.c, p)).c, u)
  {
    if NextStep(w.c, p).ReconcileStep? {
      PassMeasure(o, w, p, u);
      RestoredIsDoomed(o, w.c);
      TwoFinalizers();
      if w.c.ksvc.None? { CleanPassFinishesIff(o, w, p); }
      hide Inv, ReleasePass, AdoptPass;
    } else {
      hide Inv;
    }
  }
}
