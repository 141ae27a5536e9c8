// Translating a Deployment's pod template into a Knative Service.
module Translator {
  import opened Basics
  import opened Guard
  import opened MinScale

  datatype EnvVar = EnvVar(name: string, value: string, valueFrom: Option<EnvSource>)
  datatype EnvSource = EnvSource(fieldRef: Option<string>, resourceFieldRef: Option<string>, other: Option<string>)

  datatype ContainerPort = ContainerPort(
    name: string, hostPort: int32, hostIP: string, containerPort: int32, protocol: string)

  datatype Volume = Volume(
    name: string, configMap: Option<string>, secret: Option<string>, emptyDir: Option<string>,
    projected: Option<string>, downwardAPI: Option<string>, gatedSource: Option<string>)

  // Container fields that are copied through unread.
  datatype Carried = Carried(
    image: string, command: seq<string>, args: seq<string>, workingDir: string, envFrom: seq<string>,
    resources: string, volumeMounts: seq<string>, livenessProbe: Option<string>, readinessProbe: Option<string>,
    startupProbe: Option<string>, terminationMessagePath: string, terminationMessagePolicy: string,
    imagePullPolicy: string, securityContext: Option<string>)

  // Container fields that stock Knative rejects.
  datatype Gated = Gated(lifecycle: Option<string>, volumeDevices: seq<string>, stdin: bool, stdinOnce: bool, tty: bool)

  datatype Container = Container(
    name: string, ports: seq<ContainerPort>, env: seq<EnvVar>, carried: Carried, gated: Gated)

  // `scheduling` stands for node selector, tolerations, affinity, DNS and restart settings.
  datatype PodSpec = PodSpec(
    hostNetwork: bool, hostPID: bool, hostIPC: bool,
    serviceAccountName: string, imagePullSecrets: seq<string>,
    volumes: seq<Volume>, containers: seq<Container>, scheduling: Option<string>)

  datatype Workload = Workload(name: string, namespace: string, pod: PodSpec)

  datatype AdoptionKnobs = AdoptionKnobs(
    adoptionName: string, primaryContainer: string,
    minScale: Option<int32>, maxScale: Option<int32>, targetConcurrency: Option<int32>,
    probe: Option<ProbeStatus>)

  datatype KService = KService(
    name: string, namespace: string, ownerLabel: string, annotations: map<string, string>, pod: PodSpec)

  datatype Refusal =
    | HostNetwork | HostPID | HostIPC
    | HostPort(container: string, port: int32)
    | NoContainer | AmbiguousPrimary | PrimaryNotFound(name: string)
    | NoContainerPort | UnsupportedProtocol(protocol: string)

  // ---- filters ----

  predicate EnvAllowed(e: EnvVar) {
    e.valueFrom.None? || (e.valueFrom.value.fieldRef.None? && e.valueFrom.value.resourceFieldRef.None?)
  }

  predicate VolumeAllowed(v: Volume) {
    v.configMap.Some? || v.secret.Some? || v.emptyDir.Some? || v.projected.Some? || v.downwardAPI.Some?
  }

  // The allowed entries, in their own order.
  function Sublist<T>(s: seq<T>, allowed: T -> bool): seq<T> {
    if s == [] then []
    else Sublist(s[..|s| - 1], allowed) + (if allowed(s[|s| - 1]) then [s[|s| - 1]] else [])
  }

  lemma {:induction false} SublistAllowed<T>(s: seq<T>, allowed: T -> bool)
    ensures forall i :: 0 <= i < |Sublist(s, allowed)| ==> allowed(Sublist(s, allowed)[i])
  {
    if s != [] { SublistAllowed(s[..|s| - 1], allowed); }
  }

  // out lists the entries of s at the positions `at`, in order.
  ghost predicate Picks<T>(out: seq<T>, s: seq<T>, at: seq<nat>) {
    && |at| == |out|
    && (forall j :: 0 <= j < |at| ==> at[j] < |s| && out[j] == s[at[j]])
    && (forall j, k :: 0 <= j < k < |at| ==> at[j] < at[k])
  }

  lemma PicksOn<T>(out: seq<T>, s: seq<T>, at: seq<nat>, x: T)
    requires Picks(out, s, at)
    ensures Picks(out, s + [x], at) && Picks(out + [x], s + [x], at + [|s|]) && |s| !in at
  {
  }

  // at holds the positions of the allowed entries.
  ghost predicate Marks<T>(at: seq<nat>, s: seq<T>, allowed: T -> bool) {
    forall i: nat :: i < |s| ==> (i in at <==> allowed(s[i]))
  }

  lemma MarksOn<T>(at: seq<nat>, s: seq<T>, x: T, allowed: T -> bool)
    requires Marks(at, s, allowed) && |s| !in at
    ensures Marks(if allowed(x) then at + [|s|] else at, s + [x], allowed)
  {
  }

  lemma {:induction false} SublistPicks<T>(s: seq<T>, allowed: T -> bool) returns (at: seq<nat>)
    ensures Picks(Sublist(s, allowed), s, at) && Marks(at, s, allowed)
  {
    at := [];
    if s != [] {
      var init, x := s[..|s| - 1], s[|s| - 1];
      var most := SublistPicks(init, allowed);
      PicksOn(Sublist(init, allowed), init, most, x);
      MarksOn(most, init, x, allowed);
      hide Picks, Marks;
      assert init + [x] == s;
      at := if allowed(x) then most + [|init|] else most;
      assert Sublist(init, allowed) + [] == Sublist(init, allowed);
    }
  }

  // Exactly the variables that do not come from the downward API, in order.
  ghost predicate EnvKept(out: seq<EnvVar>, src: seq<EnvVar>) {
    exists at :: Picks(out, src, at) && forall i: nat :: i < |src| ==>
      (i in at <==> (src[i].valueFrom.Some? ==>
                       src[i].valueFrom.value.fieldRef == None && src[i].valueFrom.value.resourceFieldRef == None))
  }

  // Exactly the volumes with a source that stock Knative accepts, in order.
  ghost predicate VolumesKept(out: seq<Volume>, src: seq<Volume>) {
    exists at :: Picks(out, src, at) && forall i: nat :: i < |src| ==>
      (i in at <==> !(src[i].configMap == None && src[i].secret == None && src[i].emptyDir == None
                      && src[i].projected == None && src[i].downwardAPI == None))
  }

  lemma EnvIsKept(src: seq<EnvVar>)
    ensures EnvKept(Sublist(src, EnvAllowed), src)
  {
    var at := SublistPicks(src, EnvAllowed);
    assert Marks(at, src, EnvAllowed);
    hide Sublist, Picks;
    assert Picks(Sublist(src, EnvAllowed), src, at);
  }

  lemma VolumesAreKept(src: seq<Volume>)
    ensures VolumesKept(Sublist(src, VolumeAllowed), src)
  {
    var at := SublistPicks(src, VolumeAllowed);
    assert Marks(at, src, VolumeAllowed);
    hide Sublist, Picks;
    assert Picks(Sublist(src, VolumeAllowed), src, at);
  }

  lemma {:induction false} SublistOfAllowed<T>(s: seq<T>, allowed: T -> bool)
    requires forall i :: 0 <= i < |s| ==> allowed(s[i])
    ensures Sublist(s, allowed) == s
  {
    if s != [] { SublistOfAllowed(s[..|s| - 1], allowed); }
  }

  method SanitizeEnv(src: seq<EnvVar>) returns (out: seq<EnvVar>)
    ensures out == Sublist(src, EnvAllowed) && EnvKept(out, src)
  {
    out := [];
    for i := 0 to |src|
      invariant out == Sublist(src[..i], EnvAllowed)
    {
      assert src[..i + 1][..i] == src[..i];
      var e := src[i];
      if e.valueFrom.Some? && (e.valueFrom.value.fieldRef.Some? || e.valueFrom.value.resourceFieldRef.Some?) {
        continue;
      }
      out := out + [e];
    }
    assert src[..|src|] == src;
    EnvIsKept(src);
  }

  method SanitizeVolumes(src: seq<Volume>) returns (out: seq<Volume>)
    ensures out == Sublist(src, VolumeAllowed) && VolumesKept(out, src)
  {
    out := [];
    for i := 0 to |src|
      invariant out == Sublist(src[..i], VolumeAllowed)
    {
      assert src[..i + 1][..i] == src[..i];
      var v := src[i];
      if v.configMap.Some? || v.secret.Some? || v.emptyDir.Some? || v.projected.Some? || v.downwardAPI.Some? {
        out := out + [v];
      }
    }
    assert src[..|src|] == src;
    VolumesAreKept(src);
  }

  // ---- guards and choices ----

  function FirstHostPort(ports: seq<ContainerPort>): Option<int32> {
    if ports == [] then None else if ports[0].hostPort != 0 then Some(ports[0].hostPort) else FirstHostPort(ports[1..])
  }

  // The first host port in container order.
  function HostPortRefusal(cs: seq<Container>): Option<Refusal> {
    if cs == [] then None
    else match FirstHostPort(cs[0].ports)
      case Some(p) => Some(HostPort(cs[0].name, p))
      case None => HostPortRefusal(cs[1..])
  }

  function PodRefusal(s: PodSpec): Option<Refusal> {
    if s.hostNetwork then Some(HostNetwork)
    else if s.hostPID then Some(HostPID)
    else if s.hostIPC then Some(HostIPC)
    else HostPortRefusal(s.containers)
  }

  method GuardPodSpec(s: PodSpec) returns (r: Option<Refusal>)
    ensures r == PodRefusal(s)
  {
    if s.hostNetwork { return Some(HostNetwork); }
    if s.hostPID { return Some(HostPID); }
    if s.hostIPC { return Some(HostIPC); }
    for i := 0 to |s.containers|
      invariant HostPortRefusal(s.containers) == HostPortRefusal(s.containers[i..])
    {
      var c := s.containers[i];
      for j := 0 to |c.ports|
        invariant FirstHostPort(c.ports) == FirstHostPort(c.ports[j..])
      {
        if c.ports[j].hostPort != 0 {
          return Some(HostPort(c.name, c.ports[j].hostPort));
        }
      }
    }
    r := None;
  }

  // The container that becomes the user container: the first of that name, or the only one.
  function Primary(cs: seq<Container>, name: string): Option<Container> {
    if cs == [] then None
    else if name == "" then (if |cs| == 1 then Some(cs[0]) else None)
    else FirstNamed(cs, name)
  }

  function FirstNamed(cs: seq<Container>, name: string): Option<Container> {
    if cs == [] then None else if cs[0].name == name then Some(cs[0]) else FirstNamed(cs[1..], name)
  }

  predicate UsablePort(c: Container) {
    |c.ports| > 0 && c.ports[0].protocol in {"", "TCP"}
  }

  function SanitizedPorts(ports: seq<ContainerPort>): seq<ContainerPort> {
    if ports == [] then [] else [ports[0].(name := "", hostPort := 0, hostIP := "")]
  }

  const NO_GATED := Gated(None, [], false, false, false)

  function SanitizedContainer(c: Container): Container {
    Container(c.name, SanitizedPorts(c.ports), Sublist(c.env, EnvAllowed), c.carried, NO_GATED)
  }

  function SanitizedPod(s: PodSpec, primary: Container): PodSpec {
    PodSpec(false, false, false, s.serviceAccountName, s.imagePullSecrets,
            Sublist(s.volumes, VolumeAllowed), [SanitizedContainer(primary)], None)
  }

  function Annotations(a: AdoptionKnobs): map<string, string> {
    map[MIN_SCALE_KEY := FormatInt(EffectiveMinScale(a.minScale, a.probe))]
    + (if a.maxScale.Some? then map["autoscaling.knative.dev/max-scale" := FormatInt(a.maxScale.value)] else map[])
    + (if a.targetConcurrency.None? then map[]
       else map["autoscaling.knative.dev/target" := FormatInt(a.targetConcurrency.value)])
  }

  function PrimaryRefusal(cs: seq<Container>, name: string): Refusal {
    if cs == [] then NoContainer else if name == "" then AmbiguousPrimary else PrimaryNotFound(name)
  }

  function Translation(dep: Workload, a: AdoptionKnobs): Result<KService, Refusal> {
    var primary := Primary(dep.pod.containers, a.primaryContainer);
    if PodRefusal(dep.pod).Some? then Err(PodRefusal(dep.pod).value)
    else if primary.None? then Err(PrimaryRefusal(dep.pod.containers, a.primaryContainer))
    else if primary.value.ports == [] then Err(NoContainerPort)
    else if !UsablePort(primary.value) then Err(UnsupportedProtocol(primary.value.ports[0].protocol))
    else Ok(KService(dep.name, dep.namespace, a.adoptionName, Annotations(a), SanitizedPod(dep.pod, primary.value)))
  }

  method PickPrimaryContainer(cs: seq<Container>, name: string) returns (r: Result<Container, Refusal>)
    ensures r == match Primary(cs, name) case Some(c) => Ok(c) case None => Err(PrimaryRefusal(cs, name))
  {
    if |cs| == 0 {
      return Err(NoContainer);
    }
    if name != "" {
      for i := 0 to |cs|
        invariant FirstNamed(cs, name) == FirstNamed(cs[i..], name)
      {
        if cs[i].name == name {
          return Ok(cs[i]);
        }
      }
      return Err(PrimaryNotFound(name));
    }
    if |cs| > 1 {
      return Err(AmbiguousPrimary);
    }
    r := Ok(cs[0]);
  }

  method Translate(dep: Workload, a: AdoptionKnobs) returns (r: Result<KService, Refusal>)
    ensures r == Translation(dep, a)
  {
    var guard := GuardPodSpec(dep.pod);
    if guard.Some? {
      return Err(guard.value);
    }
    var primary := PickPrimaryContainer(dep.pod.containers, a.primaryContainer);
    if primary.Err? {
      return Err(primary.error);
    }
    var c := primary.value;
    if |c.ports| == 0 {
      return Err(NoContainerPort);
    }
    if c.ports[0].protocol != "" && c.ports[0].protocol != "TCP" {
      return Err(UnsupportedProtocol(c.ports[0].protocol));
    }
    var env := SanitizeEnv(c.env);
    var volumes := SanitizeVolumes(dep.pod.volumes);
    var user := Container(c.name, [c.ports[0].(name := "", hostPort := 0, hostIP := "")], env, c.carried, NO_GATED);
    r := Ok(KService(dep.name, dep.namespace, a.adoptionName, Annotations(a),
      PodSpec(false, false, false, dep.pod.serviceAccountName, dep.pod.imagePullSecrets, volumes, [user], None)));
  }

  // ---- theorems ----

  lemma {:induction false} FirstNamedName(cs: seq<Container>, name: string)
    ensures FirstNamed(cs, name).Some? ==> FirstNamed(cs, name).value.name == name
  {
    if cs != [] { FirstNamedName(cs[1..], name); }
  }

  // Translation is a projection: a Deployment made of the translated pod spec is
  // accepted and translates to the same Service.
  lemma TranslateTwice(dep: Workload, a: AdoptionKnobs)
    requires Translation(dep, a).Ok?
    ensures Translation(dep.(pod := Translation(dep, a).value.pod), a) == Translation(dep, a)
  {
    var k := Translation(dep, a).value;
    var primary := Primary(dep.pod.containers, a.primaryContainer).value;
    FirstNamedName(dep.pod.containers, a.primaryContainer);
    SublistAllowed(primary.env, EnvAllowed);
    SublistOfAllowed(Sublist(primary.env, EnvAllowed), EnvAllowed);
    SublistAllowed(dep.pod.volumes, VolumeAllowed);
    SublistOfAllowed(Sublist(dep.pod.volumes, VolumeAllowed), VolumeAllowed);
    hide Sublist;
    var c := k.pod.containers[0];
    assert k.pod.containers == [c] && HostPortRefusal([c]) == None by {
      assert FirstHostPort(c.ports) == None;
    }
    assert Primary(k.pod.containers, a.primaryContainer) == Some(c);
    assert SanitizedContainer(c) == c;
  }

  ghost predicate BindsHostPort(cs: seq<Container>) {
    exists i, j :: 0 <= i < |cs| && 0 <= j < |cs[i].ports| && cs[i].ports[j].hostPort != 0
  }

  lemma {:induction false} FirstHostPortIff(ports: seq<ContainerPort>)
    ensures FirstHostPort(ports).None? <==> forall j :: 0 <= j < |ports| ==> ports[j].hostPort == 0
  {
    if ports != [] {
      FirstHostPortIff(ports[1..]);
      assert forall j :: 0 < j < |ports| ==> ports[j] == ports[1..][j - 1];
    }
  }

  lemma {:induction false} HostPortRefusalIff(cs: seq<Container>)
    ensures HostPortRefusal(cs).Some? <==> BindsHostPort(cs)
  {
    if cs != [] {
      FirstHostPortIff(cs[0].ports);
      HostPortRefusalIff(cs[1..]);
      assert forall i :: 0 < i < |cs| ==> cs[i] == cs[1..][i - 1];
      if BindsHostPort(cs[1..]) {
        var i, j :| 0 <= i < |cs[1..]| && 0 <= j < |cs[1..][i].ports| && cs[1..][i].ports[j].hostPort != 0;
        assert cs[i + 1].ports[j].hostPort != 0;
      }
    }
  }

  // The container at i is the one the adoption means.
  ghost predicate Chooses(cs: seq<Container>, name: string, i: nat) {
    i < |cs| && if name == "" then |cs| == 1 else cs[i].name == name && forall j :: 0 <= j < i ==> cs[j].name != name
  }

  lemma {:induction false} FirstNamedAt(cs: seq<Container>, name: string) returns (i: nat)
    ensures if FirstNamed(cs, name).None? then forall j :: 0 <= j < |cs| ==> cs[j].name != name
            else
              && i < |cs| && FirstNamed(cs, name) == Some(cs[i]) && cs[i].name == name
              && forall j :: 0 <= j < i ==> cs[j].name != name
  {
    i := 0;
    if cs != [] && cs[0].name != name {
      var k := FirstNamedAt(cs[1..], name);
      i := k + 1;
      assert forall j :: 0 < j < |cs| ==> cs[j] == cs[1..][j - 1];
    }
  }

  lemma PrimaryChooses(cs: seq<Container>, name: string, i: nat)
    requires Chooses(cs, name, i)
    ensures Primary(cs, name) == Some(cs[i])
  {
    if name != "" {
      var k := FirstNamedAt(cs, name);
      assert k == i;
    }
  }

  // Its first port is a TCP port, by name or by default.
  ghost predicate OffersTCP(c: Container) {
    c.ports != [] && (c.ports[0].protocol == "" || c.ports[0].protocol == "TCP")
  }

  // Exactly which workloads are adoptable.
  lemma TranslatesIff(dep: Workload, a: AdoptionKnobs)
    ensures Translation(dep, a).Ok? <==>
      && !dep.pod.hostNetwork && !dep.pod.hostPID && !dep.pod.hostIPC && !BindsHostPort(dep.pod.containers)
      && exists i: nat :: Chooses(dep.pod.containers, a.primaryContainer, i) && OffersTCP(dep.pod.containers[i])
  {
    var cs, name := dep.pod.containers, a.primaryContainer;
    HostPortRefusalIff(cs);
    hide HostPortRefusal, BindsHostPort;
    if Primary(cs, name).Some? {
      var k := FirstNamedAt(cs, name);
      assert Chooses(cs, name, if name == "" then 0 else k);
    }
    if i: nat :| Chooses(cs, name, i) { PrimaryChooses(cs, name, i); }
    if i: nat :| Chooses(cs, name, i) && OffersTCP(cs[i]) { PrimaryChooses(cs, name, i); }
  }

  // The first host port, in the order of containers and of their ports.
  ghost predicate FirstBound(cs: seq<Container>, i: nat, j: nat) {
    && i < |cs| && j < |cs[i].ports| && cs[i].ports[j].hostPort != 0
    && (forall k :: 0 <= k < j ==> cs[i].ports[k].hostPort == 0)
    && (forall h, k :: 0 <= h < i && 0 <= k < |cs[h].ports| ==> cs[h].ports[k].hostPort == 0)
  }

  lemma {:induction false} FirstHostPortAt(ports: seq<ContainerPort>) returns (j: nat)
    requires FirstHostPort(ports).Some?
    ensures j < |ports| && FirstHostPort(ports) == Some(ports[j].hostPort) && ports[j].hostPort != 0
    ensures forall k :: 0 <= k < j ==> ports[k].hostPort == 0
  {
    j := 0;
    if ports[0].hostPort == 0 {
      var k := FirstHostPortAt(ports[1..]);
      j := k + 1;
      assert forall h :: 0 < h < |ports| ==> ports[h] == ports[1..][h - 1];
    }
  }

  lemma {:induction false} HostPortRefusalAt(cs: seq<Container>) returns (i: nat, j: nat)
    requires HostPortRefusal(cs).Some?
    ensures FirstBound(cs, i, j) && HostPortRefusal(cs) == Some(HostPort(cs[i].name, cs[i].ports[j].hostPort))
  {
    FirstHostPortIff(cs[0].ports);
    i, j := 0, 0;
    if FirstHostPort(cs[0].ports).Some? {
      j := FirstHostPortAt(cs[0].ports);
    } else {
      var h, k := HostPortRefusalAt(cs[1..]);
      i, j := h + 1, k;
      assert forall h :: 0 < h < |cs| ==> cs[h] == cs[1..][h - 1];
    }
  }

  // Why a workload is refused: each refusal names the first thing that is wrong.
  lemma RefusedBecause(dep: Workload, a: AdoptionKnobs)
    requires Translation(dep, a).Err?
    ensures var pod, cs, name := dep.pod, dep.pod.containers, a.primaryContainer;
      var host := pod.hostNetwork || pod.hostPID || pod.hostIPC;
      match Translation(dep, a).error
      case HostNetwork => pod.hostNetwork
      case HostPID => !pod.hostNetwork && pod.hostPID
      case HostIPC => !pod.hostNetwork && !pod.hostPID && pod.hostIPC
      case HostPort(c, p) =>
        !host && exists i: nat, j: nat :: FirstBound(cs, i, j) && c == cs[i].name && p == cs[i].ports[j].hostPort
      case NoContainer => !host && cs == []
      case AmbiguousPrimary => !host && !BindsHostPort(cs) && name == "" && |cs| > 1
      case PrimaryNotFound(n) =>
        !host && !BindsHostPort(cs) && cs != [] && n == name != "" && forall i :: 0 <= i < |cs| ==> cs[i].name != name
      case NoContainerPort => !host && !BindsHostPort(cs) && exists i: nat :: Chooses(cs, name, i) && cs[i].ports == []
      case UnsupportedProtocol(p) =>
        !host && !BindsHostPort(cs) && exists i: nat :: Chooses(cs, name, i) && WrongProtocol(cs[i], p)
  {
    var cs, name := dep.pod.containers, a.primaryContainer;
    HostPortRefusalIff(cs);
    if HostPortRefusal(cs).Some? {
      var i, j := HostPortRefusalAt(cs);
      assert FirstBound(cs, i, j);
    }
    var k := FirstNamedAt(cs, name);
    hide HostPortRefusal, BindsHostPort, FirstBound, FirstNamed;
    if Primary(cs, name).Some? { assert Chooses(cs, name, if name == "" then 0 else k); }
  }

  ghost predicate WrongProtocol(c: Container, protocol: string) {
    c.ports != [] && c.ports[0].protocol == protocol && protocol != "" && protocol != "TCP"
  }

  // ---- what reaches Knative ----

  // The pod runs container c alone: on its own first port number and protocol, bound
  // to nothing on the host, with exactly the allowed variables and volumes in their
  // order and nothing that stock Knative rejects.
  ghost predicate RunsOnly(pod: PodSpec, src: PodSpec, c: Container) {
    && c.ports != [] && |pod.containers| == 1
    && (var u := pod.containers[0];
        && u.name == c.name && u.carried == c.carried && u.gated == Gated(None, [], false, false, false)
        && u.ports == [ContainerPort("", 0, "", c.ports[0].containerPort, c.ports[0].protocol)]
        && EnvKept(u.env, c.env))
    && VolumesKept(pod.volumes, src.volumes)
    && pod.serviceAccountName == src.serviceAccountName && pod.imagePullSecrets == src.imagePullSecrets
    && !pod.hostNetwork && !pod.hostPID && !pod.hostIPC && pod.scheduling == None
  }

  // The annotations, in decimal: the user's floor, or else one instance while the last
  // probe round has refused, and ceiling and target just as far as they are declared.
  ghost predicate ScalesAs(annotations: map<string, string>, min: Option<int32>, max: Option<int32>,
                           concurrency: Option<int32>, probe: Option<ProbeStatus>) {
    var refused := probe.Some? && probe.value.result == ResultFalse;
    && annotations.Keys == {"autoscaling.knative.dev/min-scale"}
                           + (if max.Some? then {"autoscaling.knative.dev/max-scale"} else {})
                           + (if concurrency.Some? then {"autoscaling.knative.dev/target"} else {})
    && Writes(annotations["autoscaling.knative.dev/min-scale"],
              if min.Some? && min.value != 0 then min.value else if refused then 1 else 0)
    && (max.Some? ==> Writes(annotations["autoscaling.knative.dev/max-scale"], max.value))
    && (concurrency.Some? ==> Writes(annotations["autoscaling.knative.dev/target"], concurrency.value))
  }

  // The Knative Service made for a workload under the settings of its adoption.
  ghost predicate Realizes(k: KService, dep: Workload, owner: string, primary: string, min: Option<int32>,
                           max: Option<int32>, concurrency: Option<int32>, probe: Option<ProbeStatus>) {
    && k.name == dep.name && k.namespace == dep.namespace && k.ownerLabel == owner
    && ScalesAs(k.annotations, min, max, concurrency, probe)
    && exists i: nat :: Chooses(dep.pod.containers, primary, i) && RunsOnly(k.pod, dep.pod, dep.pod.containers[i])
  }

  lemma TranslateShape(dep: Workload, a: AdoptionKnobs) returns (i: nat)
    requires Translation(dep, a).Ok?
    ensures Chooses(dep.pod.containers, a.primaryContainer, i)
    ensures RunsOnly(Translation(dep, a).value.pod, dep.pod, dep.pod.containers[i])
  {
    var cs, name := dep.pod.containers, a.primaryContainer;
    var k := FirstNamedAt(cs, name);
    i := if name == "" then 0 else k;
    PrimaryChooses(cs, name, i);
    EnvIsKept(cs[i].env);
    VolumesAreKept(dep.pod.volumes);
    hide Sublist, EnvKept, VolumesKept;
  }

  lemma AnnotationKeys()
    ensures "autoscaling.knative.dev/min-scale" != "autoscaling.knative.dev/max-scale"
    ensures "autoscaling.knative.dev/min-scale" != "autoscaling.knative.dev/target"
    ensures "autoscaling.knative.dev/max-scale" != "autoscaling.knative.dev/target"
  {
    var n := |"autoscaling.knative.dev/"|;
    assert "autoscaling.knative.dev/min-scale"[n + 1] == 'i' && "autoscaling.knative.dev/max-scale"[n + 1] == 'a';
    assert "autoscaling.knative.dev/target"[n] == 't' && "autoscaling.knative.dev/min-scale"[n] == 'm';
    assert "autoscaling.knative.dev/max-scale"[n] == 'm';
  }

  lemma AnnotationsScale(a: AdoptionKnobs)
    ensures ScalesAs(Annotations(a), a.minScale, a.maxScale, a.targetConcurrency, a.probe)
  {
    AnnotationKeys();
    var floor := EffectiveMinScale(a.minScale, a.probe);
    FormatIntWrites(floor, FormatInt(floor));
    if a.maxScale.Some? { FormatIntWrites(a.maxScale.value, FormatInt(a.maxScale.value)); }
    if a.targetConcurrency.Some? { FormatIntWrites(a.targetConcurrency.value, FormatInt(a.targetConcurrency.value)); }
    hide FormatInt, Writes;
  }

  // Whatever is translated carries its workload and its settings.
  lemma TranslationRealizes(dep: Workload, a: AdoptionKnobs)
    requires Translation(dep, a).Ok?
    ensures Realizes(Translation(dep, a).value, dep, a.adoptionName, a.primaryContainer,
                     a.minScale, a.maxScale, a.targetConcurrency, a.probe)
  {
    var i := TranslateShape(dep, a);
    AnnotationsScale(a);
    hide RunsOnly, Chooses, ScalesAs, Annotations;
  }

  // The min-scale the guard hands to the flusher and the one the reconciler's own
  // apply carries are the same, and it is 0 exactly when no probed pod objected.
  // A workload pinned by its user keeps the user's value.
  lemma PathsAgree(a: AdoptionKnobs, s: GuardState, threshold: int32, results: seq<ProbeResult>)
    requires a.probe == RunRound(s, threshold, Probed(results)).probe
    ensures !GuardEnabled(a.minScale) ==> EffectiveMinScale(a.minScale, a.probe) == a.minScale.value
    ensures GuardEnabled(a.minScale) ==>
      && Enqueued(Probed(results)) == Some(EffectiveMinScale(a.minScale, a.probe))
      && (Enqueued(Probed(results)) == Some(0) <==>
            forall i :: 0 <= i < |results| ==> results[i].allowed && !results[i].errored)
    ensures Annotations(a)[MIN_SCALE_KEY] == FormatInt(EffectiveMinScale(a.minScale, a.probe))
  {
    VerdictExactly(results);
    hide FormatInt, Number, Annotations;
    AnnotatedMinScale(a);
  }

  // The pin that a round has put on is lost without any round flipping it back: a
  // blocking round followed by one that cannot list the pods leaves the last decision
  // handed to the flusher at 1 and the next apply at 0.
  lemma ListFailureUnpins(a: AdoptionKnobs, s: GuardState, threshold: int32, results: seq<ProbeResult>, message: string)
    requires GuardEnabled(a.minScale) && Objection(results)
    requires a.probe == RunRounds(s, threshold, [Probed(results), ListFailed(message)]).probe
    ensures Enqueued(Probed(results)) == Some(1) && Enqueued(ListFailed(message)) == None
    ensures Writes(Annotations(a)[MIN_SCALE_KEY], 0)
  {
    VerdictExactly(results);
    FormatIntWrites(0, FormatInt(0));
    hide FormatInt, Summary, Number, Annotations, Writes;
    var rounds := [Probed(results), ListFailed(message)];
    assert RunRounds(s, threshold, rounds[..0]) == s;
    assert rounds[..1][..0] == rounds[..0] && rounds[..1][0] == rounds[0];
    assert a.probe.value.result == ResultUnknown;
    AnnotatedMinScale(a);
  }

  lemma AnnotatedMinScale(a: AdoptionKnobs)
    ensures Annotations(a)[MIN_SCALE_KEY] == FormatInt(EffectiveMinScale(a.minScale, a.probe))
  {
    hide FormatInt;
    AnnotationKeys();
  }
}
