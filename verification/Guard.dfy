// The scale-down guard: one probe round, its vote and its bookkeeping.
module Guard {
  import opened Basics
  import opened Conditions
  import opened Decisions
  import opened MinScale

  // ---- the vote ----

  datatype ProbeResult = ProbeResult(allowed: bool, errored: bool)

  datatype Outcome = AllowZero | Block | NoPods

  predicate Favourable(r: ProbeResult) { r.allowed && !r.errored }

  // Early-return scan over the round's results.
  method Vote(results: seq<ProbeResult>) returns (o: Outcome)
    ensures o == Verdict(results)
    ensures o == NoPods <==> results == []
    ensures o == Block <==> exists i :: 0 <= i < |results| && (results[i].errored || !results[i].allowed)
    ensures o == AllowZero <==>
      results != [] && forall i :: 0 <= i < |results| ==> results[i].allowed && !results[i].errored
  {
    if |results| == 0 {
      return NoPods;
    }
    for i := 0 to |results|
      invariant forall j :: 0 <= j < i ==> Favourable(results[j])
    {
      if results[i].errored || !results[i].allowed {
        return Block;
      }
    }
    o := AllowZero;
  }

  function Verdict(results: seq<ProbeResult>): Outcome {
    if results == [] then NoPods
    else if forall i :: 0 <= i < |results| ==> Favourable(results[i]) then AllowZero
    else Block
  }

  function Number(results: seq<ProbeResult>, p: ProbeResult -> bool): nat {
    if results == [] then 0
    else Number(results[..|results| - 1], p) + (if p(results[|results| - 1]) then 1 else 0)
  }

  const ERRORED := (r: ProbeResult) => r.errored
  const OK := (r: ProbeResult) => !r.errored && r.allowed
  const REFUSED := (r: ProbeResult) => !r.errored && !r.allowed

  // The pods a count is about.
  ghost function Where(results: seq<ProbeResult>, p: ProbeResult -> bool): set<nat> {
    set i: nat | i < |results| && p(results[i])
  }

  lemma {:induction false} NumberIsSize(results: seq<ProbeResult>, p: ProbeResult -> bool)
    ensures Number(results, p) == |Where(results, p)|
  {
    if results != [] {
      var n := |results| - 1;
      NumberIsSize(results[..n], p);
      assert Where(results, p) == Where(results[..n], p) + (if p(results[n]) then {n} else {});
    }
  }

  method Tally(results: seq<ProbeResult>) returns (ok: nat, refused: nat, errored: nat)
    ensures ok == Number(results, OK) && refused == Number(results, REFUSED) && errored == Number(results, ERRORED)
    ensures ok == |set i: nat | i < |results| && results[i].allowed && !results[i].errored|
    ensures refused == |set i: nat | i < |results| && !results[i].allowed && !results[i].errored|
    ensures errored == |set i: nat | i < |results| && results[i].errored|
    ensures ok + refused + errored == |results|
  {
    ok, refused, errored := 0, 0, 0;
    for i := 0 to |results|
      invariant ok == Number(results[..i], OK) && refused == Number(results[..i], REFUSED)
      invariant errored == Number(results[..i], ERRORED)
      invariant ok + refused + errored == i
    {
      assert results[..i + 1][..i] == results[..i];
      if results[i].errored {
        errored := errored + 1;
      } else if results[i].allowed {
        ok := ok + 1;
      } else {
        refused := refused + 1;
      }
    }
    assert results[..|results|] == results;
    TallySizes(results);
  }

  lemma TallySizes(results: seq<ProbeResult>)
    ensures Number(results, OK) == |set i: nat | i < |results| && results[i].allowed && !results[i].errored|
    ensures Number(results, REFUSED) == |set i: nat | i < |results| && !results[i].allowed && !results[i].errored|
    ensures Number(results, ERRORED) == |set i: nat | i < |results| && results[i].errored|
  {
    NumberIsSize(results, OK);
    NumberIsSize(results, REFUSED);
    NumberIsSize(results, ERRORED);
    assert Where(results, OK) == set i: nat | i < |results| && results[i].allowed && !results[i].errored;
    assert Where(results, REFUSED) == set i: nat | i < |results| && !results[i].allowed && !results[i].errored;
    assert Where(results, ERRORED) == set i: nat | i < |results| && results[i].errored;
  }

  // Some pod failed to answer or answered no.
  ghost predicate Objection(results: seq<ProbeResult>) {
    exists i :: 0 <= i < |results| && (results[i].errored || !results[i].allowed)
  }

  // What the vote decides, pod by pod: one objection blocks, and it takes an
  // agreeing answer from every pod to allow zero.
  lemma {:induction false} VerdictExactly(results: seq<ProbeResult>)
    ensures Verdict(results) == NoPods <==> results == []
    ensures Verdict(results) == Block <==> Objection(results)
    ensures Verdict(results) == AllowZero <==> results != [] && Number(results, OK) == |results|
  {
    AllAgree(results);
  }

  lemma {:induction false} AllAgree(results: seq<ProbeResult>)
    ensures Number(results, OK) <= |results|
    ensures Number(results, OK) == |results| <==> !Objection(results)
  {
    if results != [] {
      var n := |results| - 1;
      AllAgree(results[..n]);
      assert forall i :: 0 <= i < n ==> results[..n][i] == results[i];
      if Objection(results[..n]) {
        var i :| 0 <= i < n && (results[..n][i].errored || !results[..n][i].allowed);
        assert results[i].errored || !results[i].allowed;
      }
    }
  }

  predicate AnyError(results: seq<ProbeResult>) {
    exists i :: 0 <= i < |results| && results[i].errored
  }

  lemma {:induction false} ErroredCount(results: seq<ProbeResult>)
    ensures Number(results, ERRORED) > 0 <==> AnyError(results)
  {
    if results != [] {
      var n := |results| - 1;
      ErroredCount(results[..n]);
      if AnyError(results[..n]) {
        var i :| 0 <= i < n && results[..n][i].errored;
        assert results[i].errored;
      }
    }
  }

  function Weight(a: seq<ProbeResult>, p: ProbeResult -> bool, r: ProbeResult): nat {
    if p(r) then multiset(a)[r] else 0
  }

  lemma {:induction false} NumberIsWeight(a: seq<ProbeResult>, p: ProbeResult -> bool)
    ensures Number(a, p) == Weight(a, p, ProbeResult(true, true)) + Weight(a, p, ProbeResult(true, false))
                          + Weight(a, p, ProbeResult(false, true)) + Weight(a, p, ProbeResult(false, false))
  {
    if a != [] {
      var init, x := a[..|a| - 1], a[|a| - 1];
      NumberIsWeight(init, p);
      assert a == init + [x];
      assert forall r :: Weight(a, p, r) == Weight(init, p, r) + (if r == x && p(x) then 1 else 0);
      assert x in {ProbeResult(true, true), ProbeResult(true, false),
                   ProbeResult(false, true), ProbeResult(false, false)};
    }
  }

  // The verdict and the tallies do not depend on the order of the pods.
  lemma OrderIrrelevant(a: seq<ProbeResult>, b: seq<ProbeResult>, p: ProbeResult -> bool)
    requires multiset(a) == multiset(b)
    ensures Verdict(a) == Verdict(b) && Number(a, p) == Number(b, p)
  {
    NumberIsWeight(a, p);
    NumberIsWeight(b, p);
    assert |a| == |multiset(a)| && |b| == |multiset(b)|;
    assert forall i :: 0 <= i < |a| ==> a[i] in multiset(b);
    assert forall i :: 0 <= i < |b| ==> b[i] in multiset(a);
  }

  // ---- status ----

  datatype Verdict3 = ResultTrue | ResultFalse | ResultUnknown

  datatype ProbeStatus = ProbeStatus(result: Verdict3, message: string, consecutiveErrors: int32)

  const SCALE_DOWN_ALLOWED := "ScaleDownAllowed"
  const DEGRADED := "Degraded"
  const PROBE_ERROR := "ScaleDownProbeError"
  const DEFAULT_THRESHOLD: int32 := 20

  function Threshold(declared: int32): (r: int32)
    ensures r > 0 && (declared > 0 ==> r == declared) && (declared == 0 ==> r == 20)
  {
    if declared <= 0 then DEFAULT_THRESHOLD else declared
  }

  predicate GuardEnabled(minScale: Option<int32>) { minScale.None? || minScale.value == 0 }

  // The single source of truth for the min-scale annotation.
  function EffectiveMinScale(minScale: Option<int32>, probe: Option<ProbeStatus>): int32 {
    var base: int32 := if minScale.Some? then minScale.value else 0;
    if base == 0 && probe.Some? && probe.value.result == ResultFalse then 1 else base
  }

  // int32 addition wraps around.
  function Bump(prev: Option<ProbeStatus>): int32 {
    if prev.Some? then Int32(prev.value.consecutiveErrors + 1) else 1
  }

  function MergeProbeStatus(prev: Option<ProbeStatus>, o: Outcome, msg: string, hadError: bool): ProbeStatus {
    ProbeStatus(
      match o case AllowZero => ResultTrue case Block => ResultFalse case NoPods => ResultUnknown,
      msg,
      if hadError then Bump(prev) else 0)
  }

  datatype Round =
    | NoProber
    | ListFailed(message: string)
    | Probed(results: seq<ProbeResult>)

  // What one round leaves in the status, and the min-scale it hands to the flusher.
  datatype GuardState = GuardState(probe: Option<ProbeStatus>, conditions: seq<Condition>)

  function Summary(results: seq<ProbeResult>): string {
    "ok=" + FormatInt(Number(results, OK)) + " refused=" + FormatInt(Number(results, REFUSED))
    + " errored=" + FormatInt(Number(results, ERRORED)) + " (n=" + FormatInt(|results|) + ")"
  }

  function MarkDegraded(s: GuardState, threshold: int32): GuardState {
    if s.probe.None? || s.probe.value.consecutiveErrors < threshold then s
    else s.(conditions := Set(s.conditions, Condition(DEGRADED, True, PROBE_ERROR,
              "consecutive /scaledownz failures = " + FormatInt(s.probe.value.consecutiveErrors)
              + ", threshold = " + FormatInt(threshold))))
  }

  function AllowConditions(cs: seq<Condition>, msg: string): seq<Condition> {
    ClearIfReason(Set(cs, Condition(SCALE_DOWN_ALLOWED, True, "ScaleDownAllowed", msg)), DEGRADED, PROBE_ERROR)
  }

  function RunRound(s: GuardState, threshold: int32, round: Round): GuardState {
    match round
    case NoProber =>
      s.(conditions := Set(s.conditions,
           Condition(SCALE_DOWN_ALLOWED, Unknown, "GuardSkipped", "prober not configured")))
    case ListFailed(m) =>
      MarkDegraded(GuardState(
        Some(ProbeStatus(ResultUnknown, "list pods: " + m, Bump(s.probe))),
        Set(s.conditions, Condition(SCALE_DOWN_ALLOWED, Unknown, PROBE_ERROR, m))), threshold)
    case Probed(results) =>
      var o := Verdict(results);
      var probe := Some(MergeProbeStatus(s.probe, o, Summary(results), Number(results, ERRORED) > 0));
      MarkDegraded(GuardState(probe,
        match o
        case AllowZero => AllowConditions(s.conditions, Summary(results))
        case Block => Set(s.conditions, Condition(SCALE_DOWN_ALLOWED, False, "ScaleDownBlocked", Summary(results)))
        case NoPods => AllowConditions(s.conditions, "ksvc already at zero; no pods to probe")), threshold)
  }

  // The decision a round enqueues, if it reaches the vote.
  function Enqueued(round: Round): Option<int32> {
    if round.Probed? then Some(if Verdict(round.results) == Block then 1 else 0) else None
  }

  // The adoption object whose status the guard edits in place.
  class GuardedAdoption {
    const name: string
    const namespace: string
    var lastProbe: Option<ProbeStatus>
    var conditions: seq<Condition>
    var decisions: seq<Decision>

    constructor (namespace: string, name: string)
      ensures this.name == name && this.namespace == namespace
      ensures lastProbe == None && conditions == [] && decisions == []
    {
      this.name, this.namespace := name, namespace;
      lastProbe, conditions, decisions := None, [], [];
    }

    method EnqueueMinScale(desired: int32, reason: string)
      modifies this`decisions
      ensures decisions == old(decisions) + [Decision(namespace, name, name, desired, reason)]
    {
      decisions := decisions + [Decision(namespace, name, name, desired, reason)];
    }

    method MaybeMarkDegraded(threshold: int32)
      modifies this`conditions
      ensures GuardState(lastProbe, conditions) == MarkDegraded(GuardState(lastProbe, old(conditions)), threshold)
    {
      if lastProbe.None? || lastProbe.value.consecutiveErrors < threshold {
        return;
      }
      conditions := Set(conditions, Condition(DEGRADED, True, PROBE_ERROR,
        "consecutive /scaledownz failures = " + FormatInt(lastProbe.value.consecutiveErrors)
        + ", threshold = " + FormatInt(threshold)));
    }

    method RunScaleDownGuard(round: Round, declaredThreshold: int32)
      modifies this
      ensures GuardState(lastProbe, conditions)
           == RunRound(GuardState(old(lastProbe), old(conditions)), Threshold(declaredThreshold), round)
      ensures match Enqueued(round)
        case None => decisions == old(decisions)
        case Some(v) =>
          && |decisions| == |old(decisions)| + 1 && decisions[..|old(decisions)|] == old(decisions)
          && decisions[|old(decisions)|].desiredMinScale == v
          && decisions[|old(decisions)|].KeyOf() == Key(namespace, name)
    {
      var threshold := Threshold(declaredThreshold);
      match round
      case NoProber =>
        conditions := Set(conditions,
          Condition(SCALE_DOWN_ALLOWED, Unknown, "GuardSkipped", "prober not configured"));
      case ListFailed(m) =>
        lastProbe := Some(ProbeStatus(ResultUnknown, "list pods: " + m, Bump(lastProbe)));
        conditions := Set(conditions, Condition(SCALE_DOWN_ALLOWED, Unknown, PROBE_ERROR, m));
        MaybeMarkDegraded(threshold);
      case Probed(results) =>
        var outcome := Vote(results);
        var ok, refused, errored := Tally(results);
        var msg := "ok=" + FormatInt(ok) + " refused=" + FormatInt(refused)
                   + " errored=" + FormatInt(errored) + " (n=" + FormatInt(|results|) + ")";
        lastProbe := Some(MergeProbeStatus(lastProbe, outcome, msg, errored > 0));
        match outcome {
          case AllowZero =>
            conditions := AllowConditions(conditions, msg);
            EnqueueMinScale(0, "scaledownz=true");
          case Block =>
            conditions := Set(conditions, Condition(SCALE_DOWN_ALLOWED, False, "ScaleDownBlocked", msg));
            EnqueueMinScale(1, "ScaleDownBlocked");
          case NoPods =>
            conditions := AllowConditions(conditions, "ksvc already at zero; no pods to probe");
            EnqueueMinScale(0, "no-pods");
        }
        MaybeMarkDegraded(threshold);
    }
  }

  // ---- every sequence of rounds ----

  function RunRounds(s: GuardState, threshold: int32, rounds: seq<Round>): GuardState {
    if rounds == [] then s
    else RunRound(RunRounds(s, threshold, rounds[..|rounds| - 1]), threshold, rounds[|rounds| - 1])
  }

  predicate ErrorRound(r: Round) {
    r.ListFailed? || (r.Probed? && AnyError(r.results))
  }

  // The rounds that clear Degraded: everybody agrees, or nobody is there.
  ghost predicate ClearRound(r: Round) { r.Probed? && !Objection(r.results) }

  // Rounds without a prober leave no trace in the counter.
  function TrailingErrors(rounds: seq<Round>): nat {
    if rounds == [] then 0
    else
      var last, init := rounds[|rounds| - 1], rounds[..|rounds| - 1];
      if last.NoProber? then TrailingErrors(init)
      else if ErrorRound(last) then 1 + TrailingErrors(init)
      else 0
  }

  // After its first n rounds the run of errors had reached the threshold, and no
  // later round cleared it.
  ghost predicate EscalatedAt(rounds: seq<Round>, threshold: int32, n: nat) {
    && 0 < n <= |rounds| && ErrorRound(rounds[n - 1]) && TrailingErrors(rounds[..n]) >= threshold
    && forall j :: n <= j < |rounds| ==> !ClearRound(rounds[j])
  }

  ghost predicate Escalated(rounds: seq<Round>, threshold: int32) {
    exists n :: EscalatedAt(rounds, threshold, n)
  }

  lemma EscalatedStep(rounds: seq<Round>, threshold: int32)
    requires rounds != [] && threshold > 0
    ensures var last, init := rounds[|rounds| - 1], rounds[..|rounds| - 1];
      Escalated(rounds, threshold) <==>
        || (Escalated(init, threshold) && !ClearRound(last))
        || (ErrorRound(last) && TrailingErrors(rounds) >= threshold)
  {
    var m := |rounds| - 1;
    var last, init := rounds[m], rounds[..m];
    hide TrailingErrors, ErrorRound, ClearRound;
    if n: nat :| EscalatedAt(rounds, threshold, n) {
      if n == m + 1 {
        assert rounds[..n] == rounds;
      } else {
        assert rounds[..n] == init[..n];
        assert EscalatedAt(init, threshold, n);
      }
    }
    if n: nat :| EscalatedAt(init, threshold, n) {
      if !ClearRound(last) {
        assert rounds[..n] == init[..n];
        assert EscalatedAt(rounds, threshold, n);
      }
    }
    if ErrorRound(last) && TrailingErrors(rounds) >= threshold {
      assert rounds[..m + 1] == rounds;
      assert EscalatedAt(rounds, threshold, m + 1);
    }
  }

  lemma WrapStep(n: nat)
    ensures Int32(Int32(n) + 1) == Int32(n + 1)
  {
  }

  ghost predicate IsDegraded(cs: seq<Condition>) { Find(cs, DEGRADED).Some? }

  // The guard is the only writer of Degraded.
  ghost predicate OwnDegraded(cs: seq<Condition>) {
    IsDegraded(cs) ==> Find(cs, DEGRADED).value.status == True && Find(cs, DEGRADED).value.reason == PROBE_ERROR
  }

  lemma AllowDegraded(cs: seq<Condition>, msg: string)
    requires OwnDegraded(cs)
    ensures !IsDegraded(AllowConditions(cs, msg))
  {
    var marked := Set(cs, Condition(SCALE_DOWN_ALLOWED, True, "ScaleDownAllowed", msg));
    FindSet(cs, Condition(SCALE_DOWN_ALLOWED, True, "ScaleDownAllowed", msg), DEGRADED);
    FindRemove(marked, DEGRADED, DEGRADED);
  }

  lemma MarkDegradedFinds(s: GuardState, threshold: int32)
    requires OwnDegraded(s.conditions)
    ensures var w := MarkDegraded(s, threshold);
      && OwnDegraded(w.conditions) && w.probe == s.probe
      && (IsDegraded(w.conditions) <==>
            IsDegraded(s.conditions) || (s.probe.Some? && s.probe.value.consecutiveErrors >= threshold))
  {
    if s.probe.Some? && s.probe.value.consecutiveErrors >= threshold {
      FindSet(s.conditions, Condition(DEGRADED, True, PROBE_ERROR,
              "consecutive /scaledownz failures = " + FormatInt(s.probe.value.consecutiveErrors)
              + ", threshold = " + FormatInt(threshold)), DEGRADED);
    }
  }

  // Wrapping can neither reach the threshold early nor miss it.
  lemma WrapThreshold(n: nat, threshold: int32)
    requires threshold > 0
    ensures Int32(n + 1) >= threshold ==> n + 1 >= threshold
    ensures n + 1 >= threshold ==> n >= threshold || Int32(n + 1) >= threshold
  {
  }

  // One round: a clear round leaves Degraded cleared, an error round that has
  // reached the threshold raises it, everything else leaves it alone.
  lemma RoundDegraded(s: GuardState, threshold: int32, r: Round)
    requires threshold > 0 && OwnDegraded(s.conditions)
    ensures var w := RunRound(s, threshold, r);
      && OwnDegraded(w.conditions)
      && (ErrorRound(r) ==> w.probe.Some? && w.probe.value.consecutiveErrors == Bump(s.probe))
      && (!ErrorRound(r) && !r.NoProber? ==> w.probe.Some? && w.probe.value.consecutiveErrors == 0)
      && (r.NoProber? ==> w.probe == s.probe)
      && (IsDegraded(w.conditions) <==>
            || (IsDegraded(s.conditions) && !ClearRound(r))
            || (ErrorRound(r) && Bump(s.probe) >= threshold))
  {
    hide Find, Set, Remove, FormatInt, Number;
    match r
    case NoProber =>
      FindSet(s.conditions, Condition(SCALE_DOWN_ALLOWED, Unknown, "GuardSkipped", "prober not configured"), DEGRADED);
    case ListFailed(m) =>
      var c := Condition(SCALE_DOWN_ALLOWED, Unknown, PROBE_ERROR, m);
      FindSet(s.conditions, c, DEGRADED);
      MarkDegradedFinds(GuardState(Some(ProbeStatus(ResultUnknown, "list pods: " + m, Bump(s.probe))),
                                   Set(s.conditions, c)), threshold);
    case Probed(results) =>
      ErroredCount(results);
      VerdictExactly(results);
      var o := Verdict(results);
      var probe := Some(MergeProbeStatus(s.probe, o, Summary(results), Number(results, ERRORED) > 0));
      if o == Block {
        var c := Condition(SCALE_DOWN_ALLOWED, False, "ScaleDownBlocked", Summary(results));
        FindSet(s.conditions, c, DEGRADED);
        MarkDegradedFinds(GuardState(probe, Set(s.conditions, c)), threshold);
      } else {
        var msg := if o == AllowZero then Summary(results) else "ksvc already at zero; no pods to probe";
        AllowDegraded(s.conditions, msg);
        MarkDegradedFinds(GuardState(probe, AllowConditions(s.conditions, msg)), threshold);
      }
  }

  // After any round ScaleDownAllowed says what the pods said: True when none
  // objected, False when one did, Unknown when nobody could be asked.
  lemma AllowedCondition(s: GuardState, threshold: int32, r: Round)
    requires threshold > 0
    ensures var w := RunRound(s, threshold, r);
      && Find(w.conditions, SCALE_DOWN_ALLOWED).Some?
      && Find(w.conditions, SCALE_DOWN_ALLOWED).value.status
         == (if !r.Probed? then Unknown
             else if forall i :: 0 <= i < |r.results| ==> r.results[i].allowed && !r.results[i].errored then True
             else False)
      && Find(w.conditions, SCALE_DOWN_ALLOWED).value.reason
         == (match Find(w.conditions, SCALE_DOWN_ALLOWED).value.status
             case True => "ScaleDownAllowed"
             case False => "ScaleDownBlocked"
             case Unknown => if r.NoProber? then "GuardSkipped" else "ScaleDownProbeError")
  {
    if r.Probed? { VerdictExactly(r.results); }
    hide Find, Set, Remove, FormatInt, Number;
    match r
    case NoProber =>
      FindSet(s.conditions, Condition(SCALE_DOWN_ALLOWED, Unknown, "GuardSkipped", "prober not configured"),
              SCALE_DOWN_ALLOWED);
    case ListFailed(m) =>
      var c := Condition(SCALE_DOWN_ALLOWED, Unknown, PROBE_ERROR, m);
      FindSet(s.conditions, c, SCALE_DOWN_ALLOWED);
      var unknown := ProbeStatus(ResultUnknown, "list pods: " + m, Bump(s.probe));
      MarkKeepsAllowed(GuardState(Some(unknown), Set(s.conditions, c)), threshold);
    case Probed(results) =>
      var o := Verdict(results);
      var probe := Some(MergeProbeStatus(s.probe, o, Summary(results), Number(results, ERRORED) > 0));
      if o == Block {
        var c := Condition(SCALE_DOWN_ALLOWED, False, "ScaleDownBlocked", Summary(results));
        FindSet(s.conditions, c, SCALE_DOWN_ALLOWED);
        MarkKeepsAllowed(GuardState(probe, Set(s.conditions, c)), threshold);
      } else {
        var msg := if o == AllowZero then Summary(results) else "ksvc already at zero; no pods to probe";
        var c := Condition(SCALE_DOWN_ALLOWED, True, "ScaleDownAllowed", msg);
        FindSet(s.conditions, c, SCALE_DOWN_ALLOWED);
        FindRemove(Set(s.conditions, c), DEGRADED, SCALE_DOWN_ALLOWED);
        MarkKeepsAllowed(GuardState(probe, AllowConditions(s.conditions, msg)), threshold);
      }
  }

  // Degraded is shared with other parts of the operator: a round that has not reached
  // the threshold leaves it as it is when its reason is not the guard's.
  lemma ForeignDegradedStays(s: GuardState, threshold: int32, r: Round)
    requires IsDegraded(s.conditions) && Find(s.conditions, DEGRADED).value.reason != "ScaleDownProbeError"
    requires var w := RunRound(s, threshold, r); w.probe.Some? ==> w.probe.value.consecutiveErrors < threshold
    ensures Find(RunRound(s, threshold, r).conditions, DEGRADED) == Find(s.conditions, DEGRADED)
  {
    match r
    case NoProber =>
      FindSet(s.conditions, Condition(SCALE_DOWN_ALLOWED, Unknown, "GuardSkipped", "prober not configured"), DEGRADED);
    case ListFailed(m) =>
      FindSet(s.conditions, Condition(SCALE_DOWN_ALLOWED, Unknown, PROBE_ERROR, m), DEGRADED);
    case Probed(results) =>
      var msg := if results == [] then "ksvc already at zero; no pods to probe" else Summary(results);
      FindSet(s.conditions, Condition(SCALE_DOWN_ALLOWED, True, "ScaleDownAllowed", msg), DEGRADED);
      FindSet(s.conditions, Condition(SCALE_DOWN_ALLOWED, False, "ScaleDownBlocked", Summary(results)), DEGRADED);
      VerdictExactly(results);
    hide Find, Set, Remove, FormatInt, Number, Objection;
  }

  lemma MarkKeepsAllowed(s: GuardState, threshold: int32)
    ensures Find(MarkDegraded(s, threshold).conditions, SCALE_DOWN_ALLOWED) == Find(s.conditions, SCALE_DOWN_ALLOWED)
  {
    if s.probe.Some? && s.probe.value.consecutiveErrors >= threshold {
      FindSet(s.conditions, Condition(DEGRADED, True, PROBE_ERROR,
              "consecutive /scaledownz failures = " + FormatInt(s.probe.value.consecutiveErrors)
              + ", threshold = " + FormatInt(threshold)), SCALE_DOWN_ALLOWED);
    }
  }

  // The state books a run of n errors, and Degraded stands exactly when it should.
  ghost predicate Tracks(s: GuardState, n: nat, escalated: bool) {
    && OwnDegraded(s.conditions) && (IsDegraded(s.conditions) <==> escalated)
    && (s.probe.None? ==> n == 0) && (s.probe.Some? ==> s.probe.value.consecutiveErrors == Int32(n))
  }

  function NextErrors(n: nat, r: Round): nat { if r.NoProber? then n else if ErrorRound(r) then n + 1 else 0 }

  lemma BumpTracks(s: GuardState, n: nat, escalated: bool)
    requires Tracks(s, n, escalated)
    ensures Bump(s.probe) == Int32(n + 1)
  {
    WrapStep(n);
    hide OwnDegraded, IsDegraded;
    assert Int32(1) == 1;
  }

  lemma RoundTracks(s: GuardState, threshold: int32, r: Round, n: nat, escalated: bool)
    requires threshold > 0 && Tracks(s, n, escalated) && (n >= threshold ==> escalated)
    ensures Tracks(RunRound(s, threshold, r), NextErrors(n, r),
                   (escalated && !ClearRound(r)) || (ErrorRound(r) && n + 1 >= threshold))
  {
    RoundDegraded(s, threshold, r);
    BumpTracks(s, n, escalated);
    WrapThreshold(n, threshold);
    ErrorIsNotClear(r);
    assert Int32(0) == 0;
    hide RunRound, ErrorRound, ClearRound, OwnDegraded, IsDegraded, Int32;
  }

  lemma ErrorIsNotClear(r: Round)
    ensures !(ErrorRound(r) && ClearRound(r)) && (r.NoProber? ==> !ErrorRound(r))
  {
  }

  // After any sequence of rounds the counter is the current run of errors (in 32
  // bits), and Degraded stands exactly when some run of errors reached the
  // threshold and no round has cleared it since.
  lemma {:induction false} DegradedExactly(conditions: seq<Condition>, threshold: int32, rounds: seq<Round>)
    requires threshold > 0 && !IsDegraded(conditions)
    ensures Tracks(RunRounds(GuardState(None, conditions), threshold, rounds),
                   TrailingErrors(rounds), Escalated(rounds, threshold))
  {
    if rounds != [] {
      hide RunRound, Escalated, ErrorRound, ClearRound, Tracks;
      var m := |rounds| - 1;
      var init, last := rounds[..m], rounds[m];
      DegradedExactly(conditions, threshold, init);
      if TrailingErrors(init) >= threshold { StillEscalated(init, threshold); }
      RoundTracks(RunRounds(GuardState(None, conditions), threshold, init), threshold, last, TrailingErrors(init),
                  Escalated(init, threshold));
      EscalatedStep(rounds, threshold);
      ErrorIsNotClear(last);
    }
  }

  // A run of errors at or past the threshold has been escalated, and is not cleared.
  lemma {:induction false} StillEscalated(rounds: seq<Round>, threshold: int32)
    requires threshold > 0 && TrailingErrors(rounds) >= threshold
    ensures Escalated(rounds, threshold)
  {
    EscalatedStep(rounds, threshold);
    if rounds[|rounds| - 1].NoProber? { StillEscalated(rounds[..|rounds| - 1], threshold); }
  }

  // ---- when blocking holds ----

  // The last round that had a prober.
  function LastAsked(rounds: seq<Round>): Option<Round> {
    if rounds == [] then None
    else if rounds[|rounds| - 1].NoProber? then LastAsked(rounds[..|rounds| - 1])
    else Some(rounds[|rounds| - 1])
  }

  ghost predicate BlockRound(r: Round) { r.Probed? && Objection(r.results) }

  // After any rounds the workload is pinned to one instance exactly when the last
  // round that asked at all got an objection. In particular a round that could not
  // list the pods unpins it.
  lemma {:induction false} BlockingExactly(minScale: Option<int32>, conditions: seq<Condition>, threshold: int32,
                                           rounds: seq<Round>)
    requires GuardEnabled(minScale)
    ensures var w := RunRounds(GuardState(None, conditions), threshold, rounds);
      && (EffectiveMinScale(minScale, w.probe) == 1 <==> LastAsked(rounds).Some? && BlockRound(LastAsked(rounds).value))
      && EffectiveMinScale(minScale, w.probe) in {0, 1}
  {
    hide Set, Remove, Find, Summary, FormatInt, Number;
    if rounds != [] {
      BlockingExactly(minScale, conditions, threshold, rounds[..|rounds| - 1]);
      RoundBlocks(minScale, RunRounds(GuardState(None, conditions), threshold, rounds[..|rounds| - 1]), threshold,
                  rounds[|rounds| - 1]);
      hide RunRound, EffectiveMinScale;
    }
  }

  // One round: a pinned workload stays pinned exactly when the round does not run or
  // gets an objection, and an objection pins it whatever it was before.
  lemma RoundBlocks(minScale: Option<int32>, s: GuardState, threshold: int32, r: Round)
    requires GuardEnabled(minScale)
    ensures var after := EffectiveMinScale(minScale, RunRound(s, threshold, r).probe);
      && (after == 1 <==> if r.NoProber? then EffectiveMinScale(minScale, s.probe) == 1 else BlockRound(r))
      && after in {0, 1}
  {
    if r.Probed? { VerdictExactly(r.results); }
    hide Set, Remove, Find, Summary, FormatInt, Number, Objection;
  }

  // The result on record after a round: what the pods said, or that it is not known.
  lemma RecordedResult(s: GuardState, threshold: int32, r: Round)
    requires !r.NoProber?
    ensures var w := RunRound(s, threshold, r);
      && w.probe.Some?
      && (w.probe.value.result == ResultTrue <==> r.Probed? && r.results != [] && !Objection(r.results))
      && (w.probe.value.result == ResultFalse <==> r.Probed? && Objection(r.results))
      && (w.probe.value.result == ResultUnknown <==> r.ListFailed? || r.results == [])
  {
    if r.Probed? { VerdictExactly(r.results); }
    hide Set, Remove, Find, Summary, FormatInt, Number, Objection;
  }
}
