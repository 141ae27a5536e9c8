// The Patcher behind the flusher: a skip-aware write of one annotation.
module MinScale {
  import opened Basics
  import opened Decisions
  import opened Json

  const MIN_SCALE_KEY := "autoscaling.knative.dev/min-scale"
  const MIN_SCALE_PATH: Path := ["spec", "template", "metadata", "annotations", MIN_SCALE_KEY]

  function Digits(n: nat): string {
    if n < 10 then [('0' as int + n) as char] else Digits(n / 10) + Digits(n % 10)
  }

  function FormatInt(n: int): string {
    if n < 0 then "-" + Digits(-n) else Digits(n)
  }

  // ---- what a decimal says ----

  // The number a string of digits denotes, read digit by digit.
  function Natural(s: string): int {
    if s == "" then 0 else 10 * Natural(s[..|s| - 1]) + (s[|s| - 1] as int - '0' as int)
  }

  // Digits only, and no leading zero.
  predicate Numeral(s: string) {
    s != "" && (forall i :: 0 <= i < |s| ==> '0' <= s[i] <= '9') && (s[0] == '0' ==> |s| == 1)
  }

  // s is the decimal writing of n.
  predicate Writes(s: string, n: int) {
    if n < 0 then s != "" && s[0] == '-' && Numeral(s[1..]) && Natural(s[1..]) == -n
    else Numeral(s) && Natural(s) == n
  }

  lemma {:induction false} DigitsWrite(n: nat)
    ensures Numeral(Digits(n)) && Natural(Digits(n)) == n && (Digits(n)[0] == '0' ==> n == 0)
  {
    if n < 10 {
      assert Digits(n)[..0] == "";
    } else {
      DigitsWrite(n / 10);
      var s, d := Digits(n / 10), Digits(n % 10);
      assert Digits(n) == s + d && |d| == 1 && (s + d)[..|s|] == s;
      assert d[0] as int - '0' as int == n % 10;
      hide Digits;
    }
  }

  // Every number is written in decimal, and in one way only.
  lemma FormatIntWrites(n: int, s: string)
    ensures Writes(s, n) <==> s == FormatInt(n)
  {
    DigitsWrite(if n < 0 then -n else n);
    if n < 0 { assert ("-" + Digits(-n))[1..] == Digits(-n); }
    if Writes(s, n) {
      if n < 0 {
        NumeralUnique(s[1..], Digits(-n));
        assert s == "-" + s[1..];
      } else {
        NumeralUnique(s, Digits(n));
      }
    }
  }

  lemma {:induction false} NumeralBounds(s: string)
    requires forall i :: 0 <= i < |s| ==> '0' <= s[i] <= '9'
    ensures Natural(s) >= 0
    ensures (s != "" && s[0] != '0' ==> Natural(s) > 0) && (|s| > 1 && s[0] != '0' ==> Natural(s) >= 10)
  {
    if s != "" {
      var init := s[..|s| - 1];
      NumeralBounds(init);
      if init != "" { assert init[0] == s[0]; }
    }
  }

  lemma {:induction false} NumeralUnique(s: string, t: string)
    requires Numeral(s) && Numeral(t) && Natural(s) == Natural(t)
    ensures s == t
    decreases |s|
  {
    var a, b := s[..|s| - 1], t[..|t| - 1];
    NumeralBounds(s);
    NumeralBounds(t);
    NumeralBounds(a);
    NumeralBounds(b);
    assert s == a + [s[|s| - 1]] && t == b + [t[|t| - 1]];
    assert s[|s| - 1] as int == t[|t| - 1] as int && Natural(a) == Natural(b);
    if |s| > 1 && |t| > 1 {
      assert a[0] == s[0] && b[0] == t[0];
      NumeralUnique(a, b);
    }
  }

  // The min-scale annotation of a KSvc document says n.
  predicate Says(doc: Json, n: int) {
    var v := Lookup(doc, ["spec", "template", "metadata", "annotations", "autoscaling.knative.dev/min-scale"]);
    v.Some? && v.value.Str? && Writes(v.value.s, n)
  }

  lemma WrittenIsSaid(doc: Json, d: Decision)
    ensures Says(WithMinScale(doc, d), d.desiredMinScale)
  {
    hide FormatInt, Lookup, SetPath;
    SetPathLookup(doc, MIN_SCALE_PATH, Str(FormatInt(d.desiredMinScale)));
    FormatIntWrites(d.desiredMinScale, FormatInt(d.desiredMinScale));
  }

  // ---- one write ----

  // The min-scale annotation of one KSvc set to a decision's value.
  function WithMinScale(doc: Json, d: Decision): Json {
    SetPath(doc, MIN_SCALE_PATH, Str(FormatInt(d.desiredMinScale)))
  }

  // Write-through: the decision lands on its KSvc if that exists.
  function WriteThrough(live: map<Key, Json>, d: Decision): map<Key, Json> {
    if d.KeyOf() in live then live[d.KeyOf() := WithMinScale(live[d.KeyOf()], d)] else live
  }

  // Nothing to write: the KSvc is missing or already has the value.
  predicate UpToDate(live: map<Key, Json>, d: Decision) {
    d.KeyOf() !in live || Lookup(live[d.KeyOf()], MIN_SCALE_PATH) == Some(Str(FormatInt(d.desiredMinScale)))
  }

  // The merge patch as the API server applies it.
  function Merged(live: map<Key, Json>, d: Decision): map<Key, Json> {
    var k := d.KeyOf();
    if k !in live then live
    else live[k := MergePatch(live[k], Nest(MIN_SCALE_PATH, Str(FormatInt(d.desiredMinScale))))]
  }

  lemma MergedWritesThrough(live: map<Key, Json>, d: Decision)
    ensures Merged(live, d) == WriteThrough(live, d)
  {
    if d.KeyOf() in live { MergeNest(live[d.KeyOf()], MIN_SCALE_PATH, Str(FormatInt(d.desiredMinScale))); }
  }

  lemma UpToDateIff(live: map<Key, Json>, d: Decision)
    ensures UpToDate(live, d) <==> WriteThrough(live, d) == live
  {
    var k := d.KeyOf();
    if k in live {
      var desired := Str(FormatInt(d.desiredMinScale));
      SetPathLookup(live[k], MIN_SCALE_PATH, desired);
      if UpToDate(live, d) {
        SetPathSame(live[k], MIN_SCALE_PATH, desired);
        assert live[k := live[k]] == live;
      } else {
        assert WriteThrough(live, d)[k] != live[k];
      }
    }
  }

  datatype Fault = NoFault | GetFails | PatchFails

  class KSvcMinScalePatcher {
    var live: map<Key, Json>

    // The read of a Patch call.
    method Check(d: Decision) returns (skip: bool)
      ensures skip <==> WriteThrough(live, d) == live
    {
      UpToDateIff(live, d);
      if d.KeyOf() !in live {
        return true;
      }
      skip := Lookup(live[d.KeyOf()], MIN_SCALE_PATH) == Some(Str(FormatInt(d.desiredMinScale)));
    }

    // The write of a Patch call.
    method Merge(d: Decision)
      requires d.KeyOf() in live
      modifies this
      ensures live == WriteThrough(old(live), d)
    {
      MergedWritesThrough(live, d);
      live := live[d.KeyOf() := MergePatch(live[d.KeyOf()], Nest(MIN_SCALE_PATH, Str(FormatInt(d.desiredMinScale))))];
    }

    // A missing KSvc and an annotation that already has the value are skipped
    // without a write; whatever is not an error leaves the write-through result.
    method Patch(d: Decision, fault: Fault) returns (skipped: bool, failed: bool)
      modifies this
      ensures failed ==> live == old(live)
      ensures !failed ==> live == WriteThrough(old(live), d)
      ensures !failed ==> (skipped <==> live == old(live))
      ensures live.Keys == old(live).Keys
      ensures !failed && Key(d.namespace, d.ksvcName) in live ==>
        Says(live[Key(d.namespace, d.ksvcName)], d.desiredMinScale)
      ensures forall k :: k in live && k != Key(d.namespace, d.ksvcName) ==> live[k] == old(live)[k]
      ensures failed ==> fault != NoFault && !skipped
    {
      hide Says;
      if d.KeyOf() in live { WrittenIsSaid(live[d.KeyOf()], d); }
      if fault == GetFails {
        return false, true;
      }
      skipped := Check(d);
      if skipped {
        return true, false;
      }
      if fault == PatchFails {
        return false, true;
      }
      assert d.KeyOf() in live;
      Merge(d);
      failed := false;
    }
  }

  // ---- applying a sequence of decisions ----

  function ApplyAll(live: map<Key, Json>, ds: seq<Decision>): map<Key, Json> {
    if ds == [] then live else WriteThrough(ApplyAll(live, ds[..|ds| - 1]), ds[|ds| - 1])
  }

  function LastFor(ds: seq<Decision>, k: Key): Option<Decision> {
    if ds == [] then None
    else if ds[|ds| - 1].KeyOf() == k then Some(ds[|ds| - 1])
    else LastFor(ds[..|ds| - 1], k)
  }

  // Only the last decision of a key matters, and nothing but its annotation.
  lemma {:induction false} LastDecides(live: map<Key, Json>, ds: seq<Decision>)
    ensures ApplyAll(live, ds).Keys == live.Keys
    ensures forall k :: k in live ==>
      ApplyAll(live, ds)[k] == if LastFor(ds, k).Some? then WithMinScale(live[k], LastFor(ds, k).value) else live[k]
  {
    if ds != [] {
      var init, d := ds[..|ds| - 1], ds[|ds| - 1];
      LastDecides(live, init);
      forall k | k in live
        ensures ApplyAll(live, ds)[k]
             == if LastFor(ds, k).Some? then WithMinScale(live[k], LastFor(ds, k).value) else live[k]
      {
        if d.KeyOf() == k && LastFor(init, k).Some? {
          SetPathAbsorbs(live[k], MIN_SCALE_PATH,
            Str(FormatInt(LastFor(init, k).value.desiredMinScale)), Str(FormatInt(d.desiredMinScale)));
        }
      }
    }
  }

  // Each KSvc says the value of the last decision with its namespace and name.
  lemma LastIsSaid(live: map<Key, Json>, ds: seq<Decision>, j: nat)
    requires j < |ds| && Key(ds[j].namespace, ds[j].ksvcName) in live
    requires forall i :: j < i < |ds| ==> ds[i].namespace != ds[j].namespace || ds[i].ksvcName != ds[j].ksvcName
    ensures var k := Key(ds[j].namespace, ds[j].ksvcName);
      k in ApplyAll(live, ds) && Says(ApplyAll(live, ds)[k], ds[j].desiredMinScale)
  {
    var k := Key(ds[j].namespace, ds[j].ksvcName);
    LastForIs(ds, k, j);
    LastDecides(live, ds);
    hide ApplyAll, LastFor, Says;
    WrittenIsSaid(live[k], ds[j]);
  }

  lemma {:induction false} LastForIs(ds: seq<Decision>, k: Key, j: nat)
    requires j < |ds| && ds[j].KeyOf() == k && forall i :: j < i < |ds| ==> ds[i].KeyOf() != k
    ensures LastFor(ds, k) == Some(ds[j])
  {
    if j < |ds| - 1 { LastForIs(ds[..|ds| - 1], k, j); }
  }

  lemma {:induction false} LastForNone(ds: seq<Decision>, k: Key)
    requires forall i :: 0 <= i < |ds| ==> ds[i].KeyOf() != k
    ensures LastFor(ds, k) == None
  {
    if ds != [] { LastForNone(ds[..|ds| - 1], k); }
  }

  // Every other field of every KSvc document survives any sequence of writes.
  lemma OtherFieldsUntouched(live: map<Key, Json>, ds: seq<Decision>, k: Key, q: Path)
    requires k in live && !(q <= MIN_SCALE_PATH) && !(MIN_SCALE_PATH <= q)
    ensures k in ApplyAll(live, ds) && Lookup(ApplyAll(live, ds)[k], q) == Lookup(live[k], q)
  {
    LastDecides(live, ds);
    if LastFor(ds, k).Some? {
      SetPathFrame(live[k], MIN_SCALE_PATH, Str(FormatInt(LastFor(ds, k).value.desiredMinScale)), q);
    }
  }
}
