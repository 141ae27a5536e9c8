// The in-place traffic edits as the code performs them.
module TrafficAdapter {
  import opened Basics
  import opened Json
  import opened Hosts
  import opened Traffic

  class Unstructured {
    var fields: Object

    constructor (fields: Object)
      ensures this.fields == fields
    {
      this.fields := fields;
    }
  }

  method EnsureDestinationPort(dest: Object, port: int32) returns (d: Object, changed: bool)
    ensures d == EnsurePort(dest, port) && (changed <==> d != dest)
  {
    d := dest;
    if "port" !in dest || !dest["port"].Obj? {
      d := dest["port" := Obj(map["number" := Int(port)])];
      return d, true;
    }
    var number := PortNumber(dest);
    if number == Some(port) {
      return d, false;
    }
    d := dest["port" := Obj(dest["port"].fields["number" := Int(port)])];
    assert PortNumber(d) == Some(port);
    changed := true;
  }

  // The innermost loop body: one managed destination.
  method AdaptDestination(sel: Selector, dest: Object) returns (d: Object, changed: bool)
    ensures d == Retarget(sel, dest) && (changed <==> d != dest)
  {
    d, changed := dest, false;
    if sel.target.Some? {
      d, changed := EnsureDestinationPort(dest, sel.target.value);
    }
    ghost var mid := d;
    if "subset" in d {
      d := d - {"subset"};
      changed := true;
    }
    assert mid - {"subset"} == d;
    assert "subset" in mid ==> "subset" in dest;
  }

  method AdaptRoutes(sel: Selector, routes: seq<Json>) returns (r: seq<Json>, changed: bool)
    ensures r == RewriteRoutes(sel, routes) && (changed <==> r != routes)
  {
    hide Retarget, Selected;
    r, changed := routes, false;
    for j := 0 to |routes|
      invariant |r| == |routes|
      invariant forall i :: 0 <= i < j ==> r[i] == RewriteRoute(sel, routes[i])
      invariant forall i :: j <= i < |r| ==> r[i] == routes[i]
      invariant changed <==> r != routes
    {
      var route := r[j];
      if route.Obj? && "destination" in route.fields && route.fields["destination"].Obj? {
        var dest := route.fields["destination"].fields;
        if Selected(sel, dest) {
          var d, c := AdaptDestination(sel, dest);
          if c {
            r := r[j := Obj(route.fields["destination" := Obj(d)])];
            assert r[j].fields["destination"] == Obj(d) != routes[j].fields["destination"];
            changed := true;
          } else {
            assert route.fields["destination" := Obj(d)] == route.fields;
          }
        }
      }
    }
  }

  // Rewrites vs in place; reports a change exactly when the document differs, and
  // fails, without touching it, exactly when spec.http cannot be read.
  method StripSubsetFromTargetDestinations(vs: Unstructured, service: string, namespace: string,
                                           servicePort: Option<int32>, target: Option<int32>)
    returns (changed: bool, failed: bool)
    modifies vs
    ensures var r := RewriteVirtualService(SelectorOf(service, namespace, servicePort, target), old(vs.fields));
      && (failed <==> r.Err?)
      && (vs.fields == if failed then old(vs.fields) else r.value)
      && (changed <==> vs.fields != old(vs.fields))
  {
    changed, failed := false, false;
    var http := NestedField(Obj(vs.fields), HTTP);
    if http.Absent? {
      return;
    }
    if http.Malformed? || !http.value.Arr? {
      failed := true;
      return;
    }
    var sel := SelectorOf(service, namespace, servicePort, target);
    var original := http.value.items;
    var https := original;
    for i := 0 to |original|
      invariant vs.fields == old(vs.fields) && |https| == |original|
      invariant forall k :: 0 <= k < i ==> https[k] == RewriteHttp(sel, original[k])
      invariant forall k :: i <= k < |https| ==> https[k] == original[k]
      invariant changed <==> https != original
    {
      var h := https[i];
      if h.Obj? && "route" in h.fields && h.fields["route"].Arr? {
        var routes, c := AdaptRoutes(sel, h.fields["route"].items);
        if c {
          https := https[i := Obj(h.fields["route" := Arr(routes)])];
          assert https[i].fields["route"] == Arr(routes) != original[i].fields["route"];
          changed := true;
        } else {
          assert h.fields["route" := Arr(routes)] == h.fields;
        }
      }
    }
    assert https == RewriteHttps(sel, original);
    FoundIsLookup(Obj(vs.fields), HTTP);
    hide RewriteHttp, SetPath, NestedField, Lookup;
    if changed {
      ghost var before := vs.fields;
      SetPathLookup(Obj(vs.fields), HTTP, Arr(https));
      SetPathIsObject(vs.fields, Arr(https));
      vs.fields := SetPath(Obj(vs.fields), HTTP, Arr(https)).fields;
      assert Lookup(Obj(vs.fields), HTTP) != Lookup(Obj(before), HTTP);
    } else {
      SetPathSame(Obj(vs.fields), HTTP, Arr(https));
    }
  }

  lemma SetPathIsObject(vs: Object, leaf: Json)
    ensures SetPath(Obj(vs), HTTP, leaf).Obj?
  {
  }

  // Drops spec.subsets of a DestinationRule whose host is the adopted Service.
  method StripTargetServiceSubsets(dr: Unstructured, service: string, namespace: string)
    returns (changed: bool, failed: bool)
    modifies dr
    ensures var r := RewriteDestinationRule(service, namespace, old(dr.fields));
      && (failed <==> r.Err?)
      && (dr.fields == if failed then old(dr.fields) else r.value)
      && (changed <==> dr.fields != old(dr.fields))
  {
    hide ServiceHostMatches;
    changed, failed := false, false;
    var host := NestedField(Obj(dr.fields), ["spec", "host"]);
    FoundIsLookup(Obj(dr.fields), ["spec", "host"]);
    if host.Malformed? || (host.Found? && !host.value.Str?) {
      failed := true;
      return;
    }
    if host.Absent? || !ServiceHostMatches(host.value.s, service, namespace) {
      return;
    }
    var spec := dr.fields["spec"].fields;
    ghost var before := dr.fields;
    if "subsets" !in spec {
      assert spec - {"subsets"} == spec;
      assert dr.fields["spec" := Obj(spec)] == dr.fields;
      return;
    }
    dr.fields := dr.fields["spec" := Obj(spec - {"subsets"})];
    assert "subsets" !in dr.fields["spec"].fields;
    changed := true;
  }
}
