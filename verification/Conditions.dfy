// status.conditions: at most one entry per type, updated in place.
module Conditions {
  import opened Basics

  datatype Status = True | False | Unknown

  datatype Condition = Condition(kind: string, status: Status, reason: string, message: string)

  // SetStatusCondition: overwrite the entry of that type, or append one.
  function Set(cs: seq<Condition>, c: Condition): seq<Condition> {
    if cs == [] then [c]
    else if cs[0].kind == c.kind then [c] + cs[1..]
    else [cs[0]] + Set(cs[1..], c)
  }

  // RemoveStatusCondition
  function Remove(cs: seq<Condition>, kind: string): seq<Condition> {
    if cs == [] then []
    else (if cs[0].kind == kind then [] else [cs[0]]) + Remove(cs[1..], kind)
  }

  // FindStatusCondition
  function Find(cs: seq<Condition>, kind: string): Option<Condition> {
    if cs == [] then None else if cs[0].kind == kind then Some(cs[0]) else Find(cs[1..], kind)
  }

  // Removes a condition only when its reason is the caller's own.
  function ClearIfReason(cs: seq<Condition>, kind: string, reason: string): seq<Condition> {
    if Find(cs, kind).Some? && Find(cs, kind).value.reason == reason then Remove(cs, kind) else cs
  }

  lemma {:induction false} FindSet(cs: seq<Condition>, c: Condition, kind: string)
    ensures Find(Set(cs, c), kind) == if kind == c.kind then Some(c) else Find(cs, kind)
  {
    if cs != [] {
      FindSet(cs[1..], c, kind);
      assert Set(cs, c)[1..] == if cs[0].kind == c.kind then cs[1..] else Set(cs[1..], c);
    }
  }

  // An entry is overwritten where it stands, a new one goes to the end, and every
  // other entry keeps its place.
  lemma {:induction false} SetPlace(cs: seq<Condition>, c: Condition) returns (i: nat)
    ensures i <= |cs| && (i < |cs| ==> cs[i].kind == c.kind) && forall j :: 0 <= j < i ==> cs[j].kind != c.kind
    ensures Set(cs, c) == if i < |cs| then cs[i := c] else cs + [c]
  {
    i := 0;
    if cs != [] && cs[0].kind != c.kind {
      var k := SetPlace(cs[1..], c);
      i := k + 1;
      assert forall j :: 0 < j < |cs| ==> cs[j] == cs[1..][j - 1];
      assert cs == [cs[0]] + cs[1..];
    }
  }

  lemma {:induction false} FindRemove(cs: seq<Condition>, removed: string, kind: string)
    ensures Find(Remove(cs, removed), kind) == if kind == removed then None else Find(cs, kind)
  {
    if cs != [] {
      FindRemove(cs[1..], removed, kind);
      if cs[0].kind == removed {
        assert Remove(cs, removed) == Remove(cs[1..], removed);
      } else {
        assert Remove(cs, removed)[1..] == Remove(cs[1..], removed);
      }
    }
  }
}
