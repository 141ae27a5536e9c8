// What adoptions that share VirtualServices and DestinationRules guarantee each other.
module FleetTheorems {
  import opened Protocol
  import opened ProtocolTheorems
  import opened Fleet
  import opened FleetFrames

  // ---- compatible claims ----

  // Two adoptions refer to the same object only where that is known to be harmless.
  ghost predicate Compatible(claims: seq<Claim>, shared: Claim) {
    forall i, j :: 0 <= i < j < |claims| ==>
      claims[i].vs * claims[j].vs <= shared.vs && claims[i].dr * claims[j].dr <= shared.dr
  }

  ghost predicate Member(c: Cluster, k: Claim, shared: Claim) { Within(c, k) && Sound(c, k, shared) }

  ghost predicate AllWithin(f: Fleet, claims: seq<Claim>, shared: Claim) {
    |claims| == |f.members| && forall i :: 0 <= i < |claims| ==> Member(f.At(i), claims[i], shared)
  }

  ghost predicate TurnsWithin(turns: seq<Turn>, claims: seq<Claim>) {
    forall i :: 0 <= i < |turns| && turns[i].who < |claims| ==> StepWithin(turns[i].step, claims[turns[i].who])
  }

  // A member does not notice a change of objects that keeps the shared ones.
  lemma MemberReader(c: Cluster, d: Cluster, k: Claim, shared: Claim)
    requires Member(c, k, shared) && c.cr == d.cr && SharedKept(c, d, shared)
    ensures Member(d, k, shared)
  {
    HarmlessKept(c, d, k, shared);
    if c.cr.Some? { RecordedKept(c, d, c.cr.value.status.snapshot, shared); }
    hide Harmless, Recorded, SpecWithin, SnapshotWithin, SharedKept;
  }

  lemma RestrictFrame(a: Objects, b: Objects, names: set<string>, mine: set<string>, shared: set<string>)
    requires Outside(a, b, names) && Same(a, b, shared) && mine * names <= shared
    ensures Restrict(a, mine) == Restrict(b, mine)
  {
  }

  // Somebody else's turn is invisible within compatible claims.
  lemma OthersTurn(f: Fleet, t: Turn, claims: seq<Claim>, shared: Claim, i: nat)
    requires AllWithin(f, claims, shared) && Compatible(claims, shared) && i < |claims|
    requires t.who < |claims| ==> StepWithin(t.step, claims[t.who])
    ensures var g := FleetStep(f, t);
      && AllWithin(g, claims, shared)
      && var was := Own(f.At(i), claims[i]);
         Own(g.At(i), claims[i]) == if t.who == i then Next(was, t.step) else was
  {
    hide Next, Within, Sound, Restrict, Outside, Same, StepWithin;
    if t.who < |claims| {
      var j := t.who;
      var g := FleetStep(f, t);
      assert Member(f.At(j), claims[j], shared);
      StepOwn(f.At(j), t.step, claims[j]);
      StepSound(f.At(j), t.step, claims[j], shared);
      assert g.At(j) == Next(f.At(j), t.step);
      TurnKeepsMembers(f, g, j, claims, shared);
      if i != j {
        assert claims[i].vs * claims[j].vs <= shared.vs && claims[i].dr * claims[j].dr <= shared.dr;
        RestrictFrame(f.vs, g.vs, claims[j].vs, claims[i].vs, shared.vs);
        RestrictFrame(f.dr, g.dr, claims[j].dr, claims[i].dr, shared.dr);
      }
    }
  }

  lemma TurnKeepsMembers(f: Fleet, g: Fleet, j: nat, claims: seq<Claim>, shared: Claim)
    requires AllWithin(f, claims, shared) && j < |claims| && |g.members| == |f.members|
    requires forall m :: 0 <= m < |f.members| && m != j ==> g.members[m] == f.members[m]
    requires Same(f.vs, g.vs, shared.vs) && Same(f.dr, g.dr, shared.dr) && Member(g.At(j), claims[j], shared)
    ensures AllWithin(g, claims, shared)
  {
    hide Same, Member;
    forall m | 0 <= m < |claims|
      ensures Member(g.At(m), claims[m], shared)
    {
      if m != j { MemberReader(f.At(m), g.At(m), claims[m], shared); }
    }
  }

  lemma {:induction false} RunReadsCluster(w: World, steps: seq<Step>)
    ensures Run(w, steps).c == Run(World(w.c, []), steps).c
    decreases |steps|
  {
    if steps != [] {
      var v, u := Apply(w, steps[0]), Apply(World(w.c, []), steps[0]);
      assert v.c == u.c by { hide AdoptFlow, ReleaseFlow, Others; }
      hide Apply;
      RunReadsCluster(v, steps[1..]);
      RunReadsCluster(u, steps[1..]);
    }
  }

  // Within compatible claims every member runs as if it were alone with its objects,
  // however the turns of the others are interleaved.
  lemma {:induction false} RunsAlone(f: Fleet, turns: seq<Turn>, claims: seq<Claim>, shared: Claim, i: nat)
    requires AllWithin(f, claims, shared) && Compatible(claims, shared) && TurnsWithin(turns, claims) && i < |claims|
    ensures var g := FleetRun(f, turns);
      && AllWithin(g, claims, shared)
      && Own(g.At(i), claims[i]) == Run(World(Own(f.At(i), claims[i]), []), StepsOf(turns, i)).c
    decreases |turns|
  {
    hide Apply, FleetStep, Own, Member, StepWithin;
    if turns != [] {
      var t, g := turns[0], FleetStep(f, turns[0]);
      OthersTurn(f, t, claims, shared, i);
      assert AllWithin(g, claims, shared);
      assert TurnsWithin(turns[1..], claims);
      RunsAlone(g, turns[1..], claims, shared, i);
      if t.who == i {
        var own := World(Own(f.At(i), claims[i]), []);
        RunCons(own, t.step, StepsOf(turns[1..], i));
        RunReadsCluster(Apply(own, t.step), StepsOf(turns[1..], i));
      } else {
        assert StepsOf(turns, i) == StepsOf(turns[1..], i);
      }
    }
  }

  lemma InitialOwn(c: Cluster, k: Claim)
    requires Initial(c)
    ensures Initial(Own(c, k))
  {
  }

  // The round trip of one member among others: when its adoption is gone, its
  // Deployment, its Service and every object it claims are what they were, whatever
  // the others are doing.
  lemma FleetRoundTrip(f: Fleet, turns: seq<Turn>, claims: seq<Claim>, shared: Claim, i: nat)
    requires AllWithin(f, claims, shared) && Compatible(claims, shared) && TurnsWithin(turns, claims) && i < |claims|
    requires Initial(f.At(i)) && FleetRun(f, turns).At(i).cr.None?
    ensures var c, d := f.At(i), FleetRun(f, turns).At(i);
      && d.ksvc.None? && d.dep.Some? == c.dep.Some? && d.svc.Some? == c.svc.Some?
      && (c.dep.Some? ==> SameReplicas(d.dep.value.replicas, c.dep.value.replicas))
      && (c.svc.Some? ==> SameService(d.svc.value.spec, c.svc.value.spec) && !FromKnative(d.svc.value))
      && Restrict(d.vs, claims[i].vs) == Restrict(c.vs, claims[i].vs)
      && Restrict(d.dr, claims[i].dr) == Restrict(c.dr, claims[i].dr)
  {
    hide Member, Compatible, TurnsWithin, Restrict, Run, FleetRun, Initial;
    RunsAlone(f, turns, claims, shared, i);
    InitialOwn(f.At(i), claims[i]);
    RoundTrip(Own(f.At(i), claims[i]), StepsOf(turns, i));
  }

  // Objects that nobody claims are never touched.
  lemma {:induction false} UnclaimedUntouched(f: Fleet, turns: seq<Turn>, claims: seq<Claim>, shared: Claim, n: string)
    requires AllWithin(f, claims, shared) && Compatible(claims, shared) && TurnsWithin(turns, claims)
    ensures var g := FleetRun(f, turns);
      && ((forall i :: 0 <= i < |claims| ==> n !in claims[i].vs) ==>
            (n in g.vs <==> n in f.vs) && (n in f.vs ==> g.vs[n] == f.vs[n]))
      && ((forall i :: 0 <= i < |claims| ==> n !in claims[i].dr) ==>
            (n in g.dr <==> n in f.dr) && (n in f.dr ==> g.dr[n] == f.dr[n]))
    decreases |turns|
  {
    if turns != [] {
      var t, g := turns[0], FleetStep(f, turns[0]);
      if t.who < |claims| {
        StepOwn(f.At(t.who), t.step, claims[t.who]);
        OthersTurn(f, t, claims, shared, t.who);
      }
      hide Next, Within, StepWithin, Own;
      assert TurnsWithin(turns[1..], claims);
      UnclaimedUntouched(g, turns[1..], claims, shared, n);
    }
  }

  // When every adoption is gone, everything shared is what it was.
  lemma FleetReleased(f: Fleet, turns: seq<Turn>, claims: seq<Claim>, shared: Claim)
    requires AllWithin(f, claims, shared) && Compatible(claims, shared) && TurnsWithin(turns, claims)
    requires forall i :: 0 <= i < |f.members| ==> Initial(f.At(i)) && FleetRun(f, turns).At(i).cr.None?
    ensures FleetRun(f, turns).vs == f.vs && FleetRun(f, turns).dr == f.dr
  {
    var g := FleetRun(f, turns);
    hide Member, FleetRun, TurnsWithin, Compatible, Initial;
    forall n
      ensures (n in g.vs <==> n in f.vs) && (n in f.vs ==> g.vs[n] == f.vs[n])
      ensures (n in g.dr <==> n in f.dr) && (n in f.dr ==> g.dr[n] == f.dr[n])
    {
      UnclaimedUntouched(f, turns, claims, shared, n);
      if i :| 0 <= i < |claims| && n in claims[i].vs {
        FleetRoundTrip(f, turns, claims, shared, i);
        RestrictAt(f.vs, g.vs, claims[i].vs, n);
      }
      if i :| 0 <= i < |claims| && n in claims[i].dr {
        FleetRoundTrip(f, turns, claims, shared, i);
        RestrictAt(f.dr, g.dr, claims[i].dr, n);
      }
    }
  }

  lemma RestrictAt(a: Objects, b: Objects, names: set<string>, n: string)
    requires Restrict(a, names) == Restrict(b, names) && n in names
    ensures (n in b <==> n in a) && (n in a ==> b[n] == a[n])
  {
    assert n in a <==> n in Restrict(a, names);
    assert n in b <==> n in Restrict(b, names);
  }
}
