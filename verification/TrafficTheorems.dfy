// The traffic rewrite is idempotent, touches only managed destinations, and can
// be undone from the spec it saw first.
module TrafficTheorems {
  import opened Basics
  import opened Json
  import opened Hosts
  import opened Traffic

  // ---- idempotence ----

  lemma RetargetTwice(sel: Selector, dest: Object)
    ensures Retarget(sel, Retarget(sel, dest)) == Retarget(sel, dest)
  {
    var d := Retarget(sel, dest);
    if sel.target.Some? {
      var p := sel.target.value;
      assert PortNumber(EnsurePort(dest, p)) == Some(p);
      assert PortNumber(d) == Some(p);
      assert EnsurePort(d, p) == d;
    }
    assert d - {"subset"} == d;
  }

  lemma RouteTwice(sel: Selector, route: Json)
    ensures RewriteRoute(sel, RewriteRoute(sel, route)) == RewriteRoute(sel, route)
  {
    var r := RewriteRoute(sel, route);
    if r != route {
      var dest := route.fields["destination"].fields;
      RetargetTwice(sel, dest);
      hide Retarget, Selected;
      assert r.fields["destination"] == Obj(Retarget(sel, dest));
      assert r.fields["destination" := Obj(Retarget(sel, Retarget(sel, dest)))] == r.fields;
    }
  }

  lemma HttpTwice(sel: Selector, http: Json)
    ensures RewriteHttp(sel, RewriteHttp(sel, http)) == RewriteHttp(sel, http)
  {
    var h := RewriteHttp(sel, http);
    hide RewriteRoute;
    if http.Obj? && "route" in http.fields && http.fields["route"].Arr? {
      var routes := http.fields["route"].items;
      var once := RewriteRoutes(sel, routes);
      forall i | 0 <= i < |routes|
        ensures RewriteRoutes(sel, once)[i] == once[i]
      {
        RouteTwice(sel, routes[i]);
      }
      assert RewriteRoutes(sel, once) == once;
      assert h.fields["route" := Arr(once)] == h.fields;
    }
  }

  // A second pass over a rewritten VirtualService finds nothing to do.
  lemma VirtualServiceTwice(sel: Selector, vs: Object)
    requires RewriteVirtualService(sel, vs).Ok?
    ensures RewriteVirtualService(sel, RewriteVirtualService(sel, vs).value) == RewriteVirtualService(sel, vs)
  {
    var once := RewriteVirtualService(sel, vs).value;
    FoundIsLookup(Obj(vs), HTTP);
    if NestedField(Obj(vs), HTTP).Found? {
      var https := NestedField(Obj(vs), HTTP).value.items;
      var mapped := RewriteHttps(sel, https);
      hide RewriteHttp, Lookup, SetPath, NestedField;
      SetPathObject(vs, HTTP, Arr(mapped));
      SetPathLookup(Obj(vs), HTTP, Arr(mapped));
      FoundIsLookup(Obj(once), HTTP);
      forall i | 0 <= i < |https|
        ensures RewriteHttps(sel, mapped)[i] == mapped[i]
      {
        HttpTwice(sel, https[i]);
      }
      assert RewriteHttps(sel, mapped) == mapped;
      SetPathSame(Obj(once), HTTP, Arr(mapped));
    }
  }

  lemma SetPathObject(vs: Object, path: Path, leaf: Json)
    requires path != []
    ensures SetPath(Obj(vs), path, leaf).Obj?
  {
  }

  lemma DestinationRuleTwice(service: string, namespace: string, dr: Object)
    requires RewriteDestinationRule(service, namespace, dr).Ok?
    ensures var once := RewriteDestinationRule(service, namespace, dr);
      RewriteDestinationRule(service, namespace, once.value) == once
  {
    hide ServiceHostMatches;
    var once := RewriteDestinationRule(service, namespace, dr).value;
    FoundIsLookup(Obj(dr), ["spec", "host"]);
    if once != dr {
      var spec := dr["spec"].fields - {"subsets"};
      assert once["spec"] == Obj(spec) && "host" in spec && spec["host"] == dr["spec"].fields["host"];
      assert spec - {"subsets"} == spec;
      assert once["spec" := Obj(spec)] == once;
      assert NestedField(Obj(once), ["spec", "host"]) == NestedField(Obj(spec), ["host"]);
    }
  }

  // ---- frame ----

  // The number below "port", if there is one.
  function NumberField(dest: Object): Option<Json> {
    if "port" in dest && dest["port"].Obj? && "number" in dest["port"].fields
    then Some(dest["port"].fields["number"]) else None
  }

  // A JSON integer stands for the port it leaves in 32 bits.
  predicate Denotes(n: Json, port: int32) { n.Int? && (n.n - port) % 0x1_0000_0000 == 0 }

  predicate Positive(port: Option<int32>) { port.Some? && port.value > 0 }

  // The destination names this port, which is positive.
  predicate OnPort(dest: Object, port: Option<int32>) {
    Positive(port) && NumberField(dest).Some? && Denotes(NumberField(dest).value, port.value)
  }

  predicate ForHost(service: string, namespace: string, dest: Object) {
    "host" in dest && dest["host"].Str? && ServiceHostMatches(dest["host"].s, service, namespace)
  }

  // The adopted Service's destination on the declared port or on the target; with
  // neither port positive, each of its destinations.
  predicate Managed(service: string, namespace: string, declared: Option<int32>, target: Option<int32>, dest: Object) {
    && ForHost(service, namespace, dest)
    && (OnPort(dest, declared) || OnPort(dest, target) || (!Positive(declared) && !Positive(target)))
  }

  // The subset goes, the port becomes the target if there is one, and nothing else
  // changes; a number that already stands for the target stays as it is.
  ghost predicate Moved(target: Option<int32>, a: Object, b: Object) {
    && "subset" !in b && b - {"port", "subset"} == a - {"port", "subset"}
    && (target.None? ==> ("port" in b <==> "port" in a) && ("port" in a ==> b["port"] == a["port"]))
    && (target.Some? ==>
          && NumberField(b).Some?
          && (if NumberField(a).Some? && Denotes(NumberField(a).value, target.value)
              then NumberField(b) == NumberField(a) else NumberField(b) == Some(Int(target.value)))
          && b["port"].fields - {"number"}
             == if "port" in a && a["port"].Obj? then a["port"].fields - {"number"} else map[])
  }

  ghost predicate DestinationFramed(service: string, namespace: string, declared: Option<int32>, target: Option<int32>,
                                    a: Object, b: Object) {
    if Managed(service, namespace, declared, target, a) then Moved(target, a, b) else b == a
  }

  ghost predicate RouteFramed(service: string, namespace: string, declared: Option<int32>, target: Option<int32>,
                              a: Json, b: Json) {
    if a.Obj? && "destination" in a.fields && a.fields["destination"].Obj?
    then b.Obj? && b.fields - {"destination"} == a.fields - {"destination"}
         && "destination" in b.fields && b.fields["destination"].Obj?
         && DestinationFramed(service, namespace, declared, target,
                              a.fields["destination"].fields, b.fields["destination"].fields)
    else b == a
  }

  // Same number of routes, in the same order.
  ghost predicate HttpFramed(service: string, namespace: string, declared: Option<int32>, target: Option<int32>,
                             a: Json, b: Json) {
    if a.Obj? && "route" in a.fields && a.fields["route"].Arr?
    then b.Obj? && b.fields - {"route"} == a.fields - {"route"}
         && "route" in b.fields && b.fields["route"].Arr?
         && |b.fields["route"].items| == |a.fields["route"].items|
         && forall i :: 0 <= i < |a.fields["route"].items| ==>
              RouteFramed(service, namespace, declared, target,
                          a.fields["route"].items[i], b.fields["route"].items[i])
    else b == a
  }

  lemma NumberIsDenoted(dest: Object, port: int32)
    ensures PortNumber(dest) == Some(port)
       <==> NumberField(dest).Some? && Denotes(NumberField(dest).value, port)
  {
    if NumberField(dest).Some? && NumberField(dest).value.Int? { Int32Wraps(NumberField(dest).value.n, port); }
    hide Int32;
  }

  // Which destinations are managed, in terms of the ports and the destination itself.
  lemma SelectedIff(service: string, namespace: string, declared: Option<int32>, target: Option<int32>, dest: Object)
    ensures Selected(SelectorOf(service, namespace, declared, target), dest)
       <==> Managed(service, namespace, declared, target, dest)
  {
    if declared.Some? { NumberIsDenoted(dest, declared.value); }
    if target.Some? { NumberIsDenoted(dest, target.value); }
    if Positive(declared) { assert declared.value in ManagedPorts(declared, target); }
    if Positive(target) { assert target.value in ManagedPorts(declared, target); }
    hide PortNumber, Denotes, NumberField, ServiceHostMatches;
  }

  lemma RetargetMoves(sel: Selector, dest: Object)
    ensures Moved(sel.target, dest, Retarget(sel, dest))
  {
    var b := Retarget(sel, dest);
    if sel.target.Some? { NumberIsDenoted(dest, sel.target.value); }
    assert b - {"port", "subset"} == dest - {"port", "subset"};
    hide Denotes, PortNumber;
  }

  lemma RouteFrame(service: string, namespace: string, declared: Option<int32>, target: Option<int32>, route: Json)
    ensures RouteFramed(service, namespace, declared, target, route,
                        RewriteRoute(SelectorOf(service, namespace, declared, target), route))
  {
    var sel := SelectorOf(service, namespace, declared, target);
    var r := RewriteRoute(sel, route);
    if route.Obj? && "destination" in route.fields && route.fields["destination"].Obj? {
      var dest := route.fields["destination"].fields;
      SelectedIff(service, namespace, declared, target, dest);
      RetargetMoves(sel, dest);
      hide Retarget, Selected, Managed, Moved;
      assert r.fields - {"destination"} == route.fields - {"destination"};
    }
  }

  lemma HttpFrame(service: string, namespace: string, declared: Option<int32>, target: Option<int32>, http: Json)
    ensures HttpFramed(service, namespace, declared, target, http,
                       RewriteHttp(SelectorOf(service, namespace, declared, target), http))
  {
    var h := RewriteHttp(SelectorOf(service, namespace, declared, target), http);
    if http.Obj? && "route" in http.fields && http.fields["route"].Arr? {
      hide RewriteRoute, RouteFramed;
      forall i | 0 <= i < |http.fields["route"].items|
        ensures RouteFramed(service, namespace, declared, target,
                            http.fields["route"].items[i], h.fields["route"].items[i])
      {
        RouteFrame(service, namespace, declared, target, http.fields["route"].items[i]);
      }
      assert h.fields - {"route"} == http.fields - {"route"};
    }
  }

  // Nothing outside spec.http changes, and inside it only managed destinations do.
  lemma VirtualServiceFrame(service: string, namespace: string, declared: Option<int32>, target: Option<int32>,
                            vs: Object, q: Path)
    requires RewriteVirtualService(SelectorOf(service, namespace, declared, target), vs).Ok?
    ensures var w := RewriteVirtualService(SelectorOf(service, namespace, declared, target), vs).value;
      && (!(q <= HTTP) && !(HTTP <= q) ==> Lookup(Obj(w), q) == Lookup(Obj(vs), q))
      && (match Lookup(Obj(vs), ["spec", "http"])
          case Some(v) =>
            && v.Arr? && Lookup(Obj(w), ["spec", "http"]).Some? && Lookup(Obj(w), ["spec", "http"]).value.Arr?
            && |Lookup(Obj(w), ["spec", "http"]).value.items| == |v.items|
            && forall i :: 0 <= i < |v.items| ==>
                 HttpFramed(service, namespace, declared, target,
                            v.items[i], Lookup(Obj(w), ["spec", "http"]).value.items[i])
          case None => w == vs)
  {
    var sel := SelectorOf(service, namespace, declared, target);
    FoundIsLookup(Obj(vs), HTTP);
    if NestedField(Obj(vs), HTTP).Found? {
      var https := NestedField(Obj(vs), HTTP).value.items;
      var mapped := RewriteHttps(sel, https);
      SetPathObject(vs, HTTP, Arr(mapped));
      hide RewriteHttp, HttpFramed, SetPath, Lookup, SelectorOf;
      SetPathLookup(Obj(vs), HTTP, Arr(mapped));
      if !(q <= HTTP) && !(HTTP <= q) { SetPathFrame(Obj(vs), HTTP, Arr(mapped), q); }
      forall i | 0 <= i < |https|
        ensures HttpFramed(service, namespace, declared, target, https[i], mapped[i])
      {
        HttpFrame(service, namespace, declared, target, https[i]);
      }
    }
  }

  const SUBSETS: Path := ["spec", "subsets"]

  function SpecField(doc: Object, k: string): Option<Json> {
    if "spec" in doc && k in Fields(doc["spec"]) then Some(Fields(doc["spec"])[k]) else None
  }

  // The host names the Service, and there are subsets to drop.
  ghost predicate DropsSubsets(service: string, namespace: string, dr: Object) {
    && SpecField(dr, "subsets").Some? && SpecField(dr, "host").Some? && SpecField(dr, "host").value.Str?
    && ServiceHostMatches(SpecField(dr, "host").value.s, service, namespace)
  }

  lemma HostField(dr: Object)
    ensures var f := NestedField(Obj(dr), ["spec", "host"]);
      && (f.Found? <==> SpecField(dr, "host").Some?) && (f.Found? ==> SpecField(dr, "host") == Some(f.value))
  {
    assert ["spec", "host"][1..] == ["host"] && ["host"][1..] == [];
    if "spec" in dr { assert NestedField(Obj(dr), ["spec", "host"]) == NestedField(dr["spec"], ["host"]); }
  }

  // Nothing outside spec.subsets changes; the rule changes exactly when its host
  // names the Service and it has subsets, and then it has none.
  lemma DestinationRuleFrame(service: string, namespace: string, dr: Object, q: Path)
    requires RewriteDestinationRule(service, namespace, dr).Ok?
    ensures var w := RewriteDestinationRule(service, namespace, dr).value;
      && (!(q <= SUBSETS) && !(SUBSETS <= q) ==> Lookup(Obj(w), q) == Lookup(Obj(dr), q))
      && (w != dr <==> DropsSubsets(service, namespace, dr))
      && (w != dr ==> SpecField(w, "subsets") == None)
  {
    hide ServiceHostMatches, NestedField, Lookup;
    HostField(dr);
    var w := RewriteDestinationRule(service, namespace, dr).value;
    if DropsSubsets(service, namespace, dr) {
      assert "subsets" !in w["spec"].fields;
    } else if "spec" in dr && dr["spec"].Obj? && "subsets" !in dr["spec"].fields {
      assert dr["spec"].fields - {"subsets"} == dr["spec"].fields;
      assert dr["spec" := Obj(dr["spec"].fields)] == dr;
    }
    if w != dr && !(q <= SUBSETS) && !(SUBSETS <= q) { DropFrame(dr, w, q); }
  }

  lemma DropFrame(dr: Object, w: Object, q: Path)
    requires "spec" in dr && w == dr["spec" := Obj(Fields(dr["spec"]) - {"subsets"})]
    requires !(q <= SUBSETS) && !(SUBSETS <= q)
    ensures Lookup(Obj(w), q) == Lookup(Obj(dr), q)
  {
    if TouchesSubsets(q) { SubsetsPath(q); } else if q[0] == "spec" { assert q[1..][0] == q[1]; }
  }

  predicate TouchesSubsets(q: Path) { q == [] || (q[0] == "spec" && (|q| == 1 || q[1] == "subsets")) }

  lemma SubsetsPath(q: Path)
    requires TouchesSubsets(q)
    ensures q <= SUBSETS || SUBSETS <= q
  {
    if |q| == 1 { assert q == SUBSETS[..1]; }
    if |q| >= 2 { assert q[..2] == SUBSETS; }
  }

  // ---- undo ----

  // The spec payload of an object, as the snapshot takes it.
  function SpecOf(obj: Object): Option<Json> {
    if "spec" in obj then Some(obj["spec"]) else None
  }

  // Restoring a snapshot writes spec, or removes it.
  function WithSpec(obj: Object, spec: Option<Json>): Object {
    if spec.Some? then obj["spec" := spec.value] else obj - {"spec"}
  }

  // b is a up to its spec.
  predicate SpecOnly(a: Object, b: Object) { WithSpec(b, SpecOf(a)) == a }

  lemma RewriteIsSpecOnly(sel: Selector, origin: Object, vs: Object)
    requires RewriteVirtualService(sel, vs).Ok? && SpecOnly(origin, vs)
    ensures SpecOnly(origin, RewriteVirtualService(sel, vs).value)
  {
    var w := RewriteVirtualService(sel, vs).value;
    assert HTTP[0] == "spec";
    FoundIsLookup(Obj(vs), HTTP);
    hide RewriteHttp;
    if NestedField(Obj(vs), HTTP).Found? {
      assert forall k :: k in w && k != "spec" ==> k in vs && w[k] == vs[k];
      assert forall k :: k in vs ==> k in w;
    }
    assert WithSpec(w, SpecOf(origin)) == WithSpec(vs, SpecOf(origin));
  }

  lemma DestinationRuleIsSpecOnly(service: string, namespace: string, origin: Object, dr: Object)
    requires RewriteDestinationRule(service, namespace, dr).Ok? && SpecOnly(origin, dr)
    ensures SpecOnly(origin, RewriteDestinationRule(service, namespace, dr).value)
  {
    hide ServiceHostMatches;
    var w := RewriteDestinationRule(service, namespace, dr).value;
    assert WithSpec(w, SpecOf(origin)) == WithSpec(dr, SpecOf(origin));
  }

  // ---- either kind ----

  lemma RewriteTwice(kind: TrafficKind, sel: Selector, obj: Object)
    requires Rewrite(kind, sel, obj).Ok?
    ensures Rewrite(kind, sel, Rewrite(kind, sel, obj).value) == Rewrite(kind, sel, obj)
  {
    match kind
    case VirtualService => VirtualServiceTwice(sel, obj);
    case DestinationRule => DestinationRuleTwice(sel.service, sel.namespace, obj);
    hide RewriteVirtualService, RewriteDestinationRule;
  }

  lemma RewriteKeepsRest(kind: TrafficKind, sel: Selector, origin: Object, obj: Object)
    requires Rewrite(kind, sel, obj).Ok? && SpecOnly(origin, obj)
    ensures SpecOnly(origin, Rewrite(kind, sel, obj).value)
  {
    if kind.VirtualService? {
      RewriteIsSpecOnly(sel, origin, obj);
    } else {
      DestinationRuleIsSpecOnly(sel.service, sel.namespace, origin, obj);
    }
    hide RewriteVirtualService, RewriteDestinationRule, SpecOnly;
  }
}
