// Rewriting VirtualServices and DestinationRules so that routes of an adopted
// Service reach the KSvc: ports are retargeted and subsets dropped.
module Traffic {
  import opened Basics
  import opened Json
  import opened Hosts

  // The top level of an unstructured Kubernetes object.
  type Object = map<string, Json>

  // ---- unstructured access ----

  datatype Field = Found(value: Json) | Absent | Malformed

  function NestedField(doc: Json, path: Path): Field
    decreases |path|
  {
    if path == [] then Found(doc)
    else match doc
      case Null => Absent
      case Obj(f) => if path[0] in f then NestedField(f[path[0]], path[1..]) else Absent
      case _ => Malformed
  }

  lemma {:induction false} FoundIsLookup(doc: Json, path: Path)
    ensures NestedField(doc, path).Found? <==> Lookup(doc, path).Some?
    ensures NestedField(doc, path).Found? ==> Lookup(doc, path) == Some(NestedField(doc, path).value)
    decreases |path|
  {
    if path != [] && path[0] in Fields(doc) { FoundIsLookup(Fields(doc)[path[0]], path[1..]); }
  }

  // ---- selection ----

  // Which destinations are managed, and the port they should get.
  datatype Selector = Selector(service: string, namespace: string, managed: set<int32>, target: Option<int32>)

  function ManagedPorts(servicePort: Option<int32>, target: Option<int32>): set<int32> {
    (if servicePort.Some? && servicePort.value > 0 then {servicePort.value} else {})
    + (if target.Some? && target.value > 0 then {target.value} else {})
  }

  function SelectorOf(service: string, namespace: string, servicePort: Option<int32>, target: Option<int32>): Selector {
    Selector(service, namespace, ManagedPorts(servicePort, target), target)
  }

  function PortNumber(dest: Object): Option<int32> {
    if "port" in dest && dest["port"].Obj? && "number" in dest["port"].fields && dest["port"].fields["number"].Int?
    then Some(Int32(dest["port"].fields["number"].n)) else None
  }

  predicate Selected(sel: Selector, dest: Object) {
    && "host" in dest && dest["host"].Str? && ServiceHostMatches(dest["host"].s, sel.service, sel.namespace)
    && (sel.managed == {} || (PortNumber(dest).Some? && PortNumber(dest).value in sel.managed))
  }

  // ---- the rewrite, as a function of the document ----

  function EnsurePort(dest: Object, port: int32): Object {
    if "port" !in dest || !dest["port"].Obj? then dest["port" := Obj(map["number" := Int(port)])]
    else if PortNumber(dest) == Some(port) then dest
    else dest["port" := Obj(dest["port"].fields["number" := Int(port)])]
  }

  function Retarget(sel: Selector, dest: Object): Object {
    (if sel.target.Some? then EnsurePort(dest, sel.target.value) else dest) - {"subset"}
  }

  function RewriteRoute(sel: Selector, route: Json): Json {
    if route.Obj? && "destination" in route.fields && route.fields["destination"].Obj?
       && Selected(sel, route.fields["destination"].fields)
    then Obj(route.fields["destination" := Obj(Retarget(sel, route.fields["destination"].fields))])
    else route
  }

  function RewriteRoutes(sel: Selector, routes: seq<Json>): (r: seq<Json>)
    ensures |r| == |routes| && forall i :: 0 <= i < |r| ==> r[i] == RewriteRoute(sel, routes[i])
  {
    seq(|routes|, i requires 0 <= i < |routes| => RewriteRoute(sel, routes[i]))
  }

  function RewriteHttp(sel: Selector, http: Json): Json {
    if http.Obj? && "route" in http.fields && http.fields["route"].Arr?
    then Obj(http.fields["route" := Arr(RewriteRoutes(sel, http.fields["route"].items))])
    else http
  }

  function RewriteHttps(sel: Selector, https: seq<Json>): (r: seq<Json>)
    ensures |r| == |https| && forall i :: 0 <= i < |r| ==> r[i] == RewriteHttp(sel, https[i])
  {
    seq(|https|, i requires 0 <= i < |https| => RewriteHttp(sel, https[i]))
  }

  const HTTP: Path := ["spec", "http"]

  // Err when spec is not an object or spec.http is not a list.
  function RewriteVirtualService(sel: Selector, vs: Object): Result<Object, string> {
    match NestedField(Obj(vs), HTTP)
    case Malformed => Err("read spec.http")
    case Absent => Ok(vs)
    case Found(v) =>
      if !v.Arr? then Err("read spec.http")
      else Ok(SetPath(Obj(vs), HTTP, Arr(RewriteHttps(sel, v.items))).fields)
  }

  function RewriteDestinationRule(service: string, namespace: string, dr: Object): Result<Object, string> {
    match NestedField(Obj(dr), ["spec", "host"])
    case Malformed => Err("read spec.host")
    case Absent => Ok(dr)
    case Found(v) =>
      if !v.Str? then Err("read spec.host")
      else if !ServiceHostMatches(v.s, service, namespace) then Ok(dr)
      else Ok(dr["spec" := Obj(Fields(dr["spec"]) - {"subsets"})])
  }

  datatype TrafficKind = VirtualService | DestinationRule

  function Rewrite(kind: TrafficKind, sel: Selector, obj: Object): Result<Object, string> {
    match kind
    case VirtualService => RewriteVirtualService(sel, obj)
    case DestinationRule => RewriteDestinationRule(sel.service, sel.namespace, obj)
  }
}
