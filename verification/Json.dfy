// JSON documents, path access, and the merge patch of section 2 of RFC 7396.
module Json {
  import opened Basics

  // Integers and other numbers are kept apart, as in decoded Kubernetes objects.
  datatype Json =
    | Null
    | Bool(b: bool)
    | Int(n: int)
    | Float(text: string)
    | Str(s: string)
    | Arr(items: seq<Json>)
    | Obj(fields: map<string, Json>)

  type Path = seq<string>

  function Fields(doc: Json): map<string, Json> {
    if doc.Obj? then doc.fields else map[]
  }

  function Lookup(doc: Json, path: Path): Option<Json>
    decreases |path|
  {
    if path == [] then Some(doc)
    else if path[0] in Fields(doc) then Lookup(Fields(doc)[path[0]], path[1..])
    else None
  }

  function Child(doc: Json, k: string): Json {
    if k in Fields(doc) then Fields(doc)[k] else Null
  }

  // Write a leaf, creating objects on the way and replacing what is not one.
  function SetPath(doc: Json, path: Path, leaf: Json): Json
    decreases |path|
  {
    if path == [] then leaf
    else Obj(Fields(doc)[path[0] := SetPath(Child(doc, path[0]), path[1..], leaf)])
  }

  // MergePatch(Target, Patch) of RFC 7396.
  function MergePatch(target: Json, patch: Json): Json
    decreases patch
  {
    match patch
    case Obj(p) =>
      var t := Fields(target);
      Obj(map k | k in t.Keys + p.Keys && !(k in p && p[k].Null?) ::
            if k in p then MergePatch(Child(target, k), p[k]) else t[k])
    case _ => patch
  }

  // The patch document that mentions one path only.
  function Nest(path: Path, leaf: Json): Json
    decreases |path|
  {
    if path == [] then leaf else Obj(map[path[0] := Nest(path[1..], leaf)])
  }

  lemma MergeKeys(doc: Json, k: string, patch: Json)
    requires !patch.Null?
    ensures MergePatch(doc, Obj(map[k := patch])).Obj?
    ensures MergePatch(doc, Obj(map[k := patch])).fields.Keys == Fields(doc).Keys + {k}
  {
  }

  lemma MergeAt(doc: Json, k: string, patch: Json, n: string)
    requires !patch.Null? && n in Fields(doc).Keys + {k}
    ensures MergePatch(doc, Obj(map[k := patch])).Obj? && n in MergePatch(doc, Obj(map[k := patch])).fields
    ensures MergePatch(doc, Obj(map[k := patch])).fields[n]
         == if n == k then MergePatch(Child(doc, k), patch) else Fields(doc)[n]
  {
    MergeKeys(doc, k, patch);
    var p := map[k := patch];
    assert p[k] == patch;
  }

  lemma MergeOne(doc: Json, k: string, patch: Json)
    requires !patch.Null?
    ensures MergePatch(doc, Obj(map[k := patch])) == Obj(Fields(doc)[k := MergePatch(Child(doc, k), patch)])
  {
    MergeKeys(doc, k, patch);
    var merged := MergePatch(doc, Obj(map[k := patch])).fields;
    var wanted := Fields(doc)[k := MergePatch(Child(doc, k), patch)];
    forall n | n in Fields(doc).Keys + {k}
      ensures n in merged && merged[n] == wanted[n]
    {
      MergeAt(doc, k, patch, n);
    }
    hide MergePatch, Child;
    assert merged == wanted;
  }

  lemma {:induction false} MergeNest(doc: Json, path: Path, leaf: Json)
    requires !leaf.Null? && !leaf.Obj?
    ensures MergePatch(doc, Nest(path, leaf)) == SetPath(doc, path, leaf)
    decreases |path|
  {
    if path != [] {
      MergeNest(Child(doc, path[0]), path[1..], leaf);
      MergeOne(doc, path[0], Nest(path[1..], leaf));
      hide MergePatch;
    }
  }

  lemma {:induction false} SetPathAbsorbs(doc: Json, path: Path, a: Json, b: Json)
    ensures SetPath(SetPath(doc, path, a), path, b) == SetPath(doc, path, b)
    decreases |path|
  {
    if path != [] {
      var k, rest := path[0], path[1..];
      var child := Child(doc, k);
      SetPathAbsorbs(child, rest, a, b);
      var written := SetPath(child, rest, a);
      var once := Obj(Fields(doc)[k := written]);
      assert SetPath(doc, path, a) == once && Child(once, k) == written;
      assert SetPath(once, path, b) == Obj(once.fields[k := SetPath(written, rest, b)]);
      assert once.fields[k := SetPath(written, rest, b)] == Fields(doc)[k := SetPath(child, rest, b)];
    }
  }

  lemma {:induction false} SetPathSame(doc: Json, path: Path, leaf: Json)
    requires Lookup(doc, path) == Some(leaf)
    ensures SetPath(doc, path, leaf) == doc
    decreases |path|
  {
    if path != [] {
      SetPathSame(Fields(doc)[path[0]], path[1..], leaf);
      assert SetPath(doc, path, leaf).fields == doc.fields;
    }
  }

  // Only what lies on or below the written path is affected.
  lemma {:induction false} SetPathFrame(doc: Json, path: Path, leaf: Json, q: Path)
    requires !(q <= path) && !(path <= q)
    ensures Lookup(SetPath(doc, path, leaf), q) == Lookup(doc, q)
    decreases |path|
  {
    if q[0] == path[0] {
      assert q == [q[0]] + q[1..] && path == [path[0]] + path[1..];
      SetPathFrame(Child(doc, path[0]), path[1..], leaf, q[1..]);
    }
  }

  lemma {:induction false} SetPathLookup(doc: Json, path: Path, leaf: Json)
    ensures Lookup(SetPath(doc, path, leaf), path) == Some(leaf)
    decreases |path|
  {
    if path != [] {
      SetPathLookup(Child(doc, path[0]), path[1..], leaf);
    }
  }
}
