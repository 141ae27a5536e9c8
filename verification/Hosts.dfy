// Which Istio host strings name a Kubernetes Service.
module Hosts {
  import opened Basics

  // unicode.IsSpace
  predicate IsSpace(c: char) {
    || '\t' <= c <= '\r' || c == ' ' || c == '\U{0085}' || c == '\U{00A0}' || c == '\U{1680}'
    || '\U{2000}' <= c <= '\U{200A}' || c == '\U{2028}' || c == '\U{2029}' || c == '\U{202F}'
    || c == '\U{205F}' || c == '\U{3000}'
  }

  function TrimLeft(s: string): string {
    if s != "" && IsSpace(s[0]) then TrimLeft(s[1..]) else s
  }

  function TrimRight(s: string): string {
    if s != "" && IsSpace(s[|s| - 1]) then TrimRight(s[..|s| - 1]) else s
  }

  function TrimDot(s: string): string {
    if s != "" && s[|s| - 1] == '.' then s[..|s| - 1] else s
  }

  function LowerChar(c: char): char {
    if 'A' <= c <= 'Z' then (c as int - 'A' as int + 'a' as int) as char else c
  }

  function ToLower(s: string): (r: string)
    ensures |r| == |s| && forall i :: 0 <= i < |s| ==> r[i] == LowerChar(s[i])
  {
    seq(|s|, i requires 0 <= i < |s| => LowerChar(s[i]))
  }

  function NormalizeHost(s: string): string {
    ToLower(TrimDot(TrimRight(TrimLeft(s))))
  }

  predicate ServiceHostMatches(host: string, service: string, namespace: string) {
    var h, svc, ns := NormalizeHost(host), NormalizeHost(service), NormalizeHost(namespace);
    && h != "" && svc != "" && ns != ""
    && (h == svc || h == svc + "." + ns || h == svc + "." + ns + ".svc" || svc + "." + ns + ".svc." <= h)
  }

  // ---- exactness ----

  // A lower-case name without dots or blanks.
  predicate Label(s: string) {
    s != "" && forall i :: 0 <= i < |s| ==> s[i] != '.' && !IsSpace(s[i]) && LowerChar(s[i]) == s[i]
  }

  // Something whose ends survive normalization.
  predicate Firm(s: string) {
    && s != "" && !IsSpace(s[0]) && !IsSpace(s[|s| - 1]) && s[|s| - 1] != '.'
    && forall i :: 0 <= i < |s| ==> LowerChar(s[i]) == s[i]
  }

  lemma {:induction false} TrimRightAfter(p: string, x: string)
    requires p != "" && !IsSpace(p[|p| - 1])
    ensures TrimRight(p + x) == p + TrimRight(x)
    decreases |x|
  {
    if x == "" {
      assert p + x == p;
    } else {
      assert (p + x)[..|p + x| - 1] == p + x[..|x| - 1];
      TrimRightAfter(p, x[..|x| - 1]);
    }
  }

  lemma LowerAfter(p: string, z: string)
    requires forall i :: 0 <= i < |p| ==> LowerChar(p[i]) == p[i]
    ensures ToLower(p + z) == p + ToLower(z)
  {
    hide LowerChar;
  }

  lemma TrimDotAfter(p: string, y: string)
    requires p != "" && p[|p| - 1] != '.'
    ensures TrimDot(p + y) == p + TrimDot(y)
  {
    if y == "" {
      assert p + y == p;
    }
  }

  // Normalization only touches what follows a firm prefix.
  lemma NormalizeAfter(p: string, x: string)
    requires Firm(p)
    ensures NormalizeHost(p + x) == p + ToLower(TrimDot(TrimRight(x)))
  {
    assert (p + x)[0] == p[0];
    assert TrimLeft(p + x) == p + x;
    hide IsSpace, LowerChar, TrimLeft;
    TrimRightAfter(p, x);
    TrimDotAfter(p, TrimRight(x));
    LowerAfter(p, TrimDot(TrimRight(x)));
  }

  lemma LabelNormal(s: string)
    requires Label(s)
    ensures NormalizeHost(s) == s
  {
    NormalizeAfter(s, "");
    assert s + "" == s;
  }

  lemma FirstDot(a: string, x: string, i: nat)
    requires (forall j :: 0 <= j < |a| ==> a[j] != '.') && (x == "" || x[0] == '.')
    ensures i < |a| ==> (a + x)[i] != '.'
    ensures x != "" ==> (a + x)[|a|] == '.'
  {
  }

  // A string splits at its first dot in one way only.
  lemma {:induction false} CutUnique(a: string, b: string, x: string, y: string)
    requires (forall i :: 0 <= i < |a| ==> a[i] != '.') && (forall i :: 0 <= i < |b| ==> b[i] != '.')
    requires x == "" || x[0] == '.'
    requires y == "" || y[0] == '.'
    requires a + x == b + y
    ensures a == b && x == y
  {
    var s := a + x;
    assert s == b + y;
    FirstDot(a, x, |b|);
    FirstDot(b, y, |a|);
    assert a == s[..|a|] && b == s[..|b|] && x == s[|a|..] && y == s[|b|..];
  }

  lemma CutTwice(svc: string, ns: string, t: string, svc2: string, ns2: string, r: string)
    requires Label(svc) && Label(ns) && Label(svc2) && Label(ns2)
    requires (r == "" || r[0] == '.') && (t == "" || t[0] == '.')
    requires svc2 + ("." + ns2 + r) == svc + ("." + ns + t)
    ensures svc2 == svc && ns2 == ns
  {
    CutUnique(svc2, svc, "." + ns2 + r, "." + ns + t);
    assert ns2 + r == ("." + ns2 + r)[1..] && ns + t == ("." + ns + t)[1..];
    CutUnique(ns2, ns, r, t);
  }

  lemma NotBare(svc: string, svc2: string, rest: string)
    requires Label(svc) && Label(svc2) && rest != "" && rest[0] == '.'
    ensures svc2 + rest != svc
  {
    assert (svc2 + rest)[|svc2|] == '.';
  }

  // A normalized qualified host names at most the service and namespace it spells.
  lemma QualifiedNames(svc: string, ns: string, svc2: string, ns2: string, r: string)
    requires Label(svc) && Label(ns) && Label(svc2) && Label(ns2)
    requires r == "" || r[0] == '.'
    requires var h := svc2 + ("." + ns2 + r);
      h == svc || h == svc + "." + ns || h == svc + "." + ns + ".svc" || svc + "." + ns + ".svc." <= h
    ensures svc2 == svc && ns2 == ns
  {
    var h := svc2 + ("." + ns2 + r);
    NotBare(svc, svc2, "." + ns2 + r);
    hide Label;
    if h == svc + "." + ns {
      assert svc + "." + ns == svc + ("." + ns + "");
      CutTwice(svc, ns, "", svc2, ns2, r);
    } else if h == svc + "." + ns + ".svc" {
      assert svc + "." + ns + ".svc" == svc + ("." + ns + ".svc");
      CutTwice(svc, ns, ".svc", svc2, ns2, r);
    } else {
      var p := svc + "." + ns + ".svc.";
      var z := h[|p|..];
      assert h == p + z;
      assert p + z == svc + ("." + ns + (".svc." + z));
      CutTwice(svc, ns, ".svc." + z, svc2, ns2, r);
    }
  }

  // The trailing dot of an absolute name.
  function Dot(absolute: bool): string { if absolute then "." else "" }

  lemma BareHost(svc: string, ns: string, svc2: string, absolute: bool)
    requires Label(svc) && Label(ns) && Label(svc2)
    ensures ServiceHostMatches(svc2 + Dot(absolute), svc, ns) <==> svc2 == svc
  {
    LabelNormal(svc);
    LabelNormal(ns);
    NormalizeAfter(svc2, Dot(absolute));
    assert svc2 + "" == svc2;
    var long := svc + "." + ns;
    assert long[|svc|] == '.' && (long + ".svc")[|svc|] == '.' && (long + ".svc.")[|svc|] == '.';
  }

  // A host that normalizes to svc2.ns2, svc2.ns2.svc or svc2.ns2.svc.<anything>.
  lemma QualifiedHost(host: string, svc: string, ns: string, svc2: string, ns2: string, r: string)
    requires Label(svc) && Label(ns) && Label(svc2) && Label(ns2)
    requires NormalizeHost(host) == svc2 + ("." + ns2 + r)
    requires r == "" || r == ".svc" || ".svc." <= r
    ensures ServiceHostMatches(host, svc, ns) <==> svc2 == svc && ns2 == ns
  {
    LabelNormal(svc);
    LabelNormal(ns);
    hide NormalizeHost, Label;
    var h := NormalizeHost(host);
    var stem := svc2 + "." + ns2;
    assert h == stem + r;
    assert r == "" ==> h == stem;
    assert ".svc." <= r ==> h == (stem + ".svc.") + r[|".svc."|..];
    if ServiceHostMatches(host, svc, ns) {
      QualifiedNames(svc, ns, svc2, ns2, r);
    }
  }

  lemma FirmHost(svc2: string, ns2: string, r: string)
    requires Label(svc2) && Label(ns2) && (r == "" || r == ".svc")
    ensures Firm(svc2 + "." + ns2 + r)
  {
    var p := svc2 + "." + ns2 + r;
    assert p[0] == svc2[0];
    assert r == "" ==> p[|p| - 1] == ns2[|ns2| - 1];
    assert r == ".svc" ==> p[|p| - 1] == 'c';
  }

  lemma DotVanishes(absolute: bool)
    ensures TrimDot(TrimRight(Dot(absolute))) == ""
  {
  }

  // svc2.ns2 and svc2.ns2.svc, with or without a trailing dot.
  lemma ShortHost(svc: string, ns: string, svc2: string, ns2: string, suffixed: bool, absolute: bool)
    requires Label(svc) && Label(ns) && Label(svc2) && Label(ns2)
    ensures ServiceHostMatches(svc2 + "." + ns2 + (if suffixed then ".svc" else "") + Dot(absolute), svc, ns)
        <==> svc2 == svc && ns2 == ns
  {
    hide ServiceHostMatches, NormalizeHost, Label, Dot;
    var r := if suffixed then ".svc" else "";
    ShortNormal(svc2, ns2, r, absolute);
    QualifiedHost(svc2 + "." + ns2 + r + Dot(absolute), svc, ns, svc2, ns2, r);
  }

  lemma ShortNormal(svc2: string, ns2: string, r: string, absolute: bool)
    requires Label(svc2) && Label(ns2) && (r == "" || r == ".svc")
    ensures NormalizeHost(svc2 + "." + ns2 + r + Dot(absolute)) == svc2 + ("." + ns2 + r)
  {
    hide NormalizeHost, Label, Firm, TrimRight, TrimDot, Dot;
    var p := svc2 + "." + ns2 + r;
    FirmHost(svc2, ns2, r);
    NormalizeAfter(p, Dot(absolute));
    DotVanishes(absolute);
    assert p + ToLower("") == svc2 + ("." + ns2 + r);
  }

  // svc2.ns2.svc.<domain> for any cluster domain, with or without a trailing dot.
  lemma LongHost(svc: string, ns: string, svc2: string, ns2: string, domain: string)
    requires Label(svc) && Label(ns) && Label(svc2) && Label(ns2)
    ensures ServiceHostMatches(svc2 + "." + ns2 + ".svc" + ("." + domain), svc, ns) <==> svc2 == svc && ns2 == ns
  {
    var p := svc2 + "." + ns2 + ".svc";
    FirmHost(svc2, ns2, ".svc");
    NormalizeAfter(p, "." + domain);
    hide ServiceHostMatches, NormalizeHost, Label, Firm, TrimDot, TrimRight, ToLower;
    var z := DomainTail(domain);
    Regroup(svc2, ns2, ".svc", z);
    QualifiedHost(p + ("." + domain), svc, ns, svc2, ns2, ".svc" + z);
  }

  lemma Regroup(a: string, b: string, c: string, z: string)
    ensures a + "." + b + c + z == a + ("." + b + (c + z))
  {
    assert "." + b + (c + z) == "." + b + c + z;
  }

  // A domain normalizes to nothing, or to something after a dot.
  lemma DomainTail(domain: string) returns (z: string)
    ensures z == ToLower(TrimDot(TrimRight("." + domain)))
    ensures ".svc" + z == ".svc" || ".svc." <= ".svc" + z
  {
    z := ToLower(TrimDot(TrimRight("." + domain)));
    TrimRightAfter(".", domain);
    hide TrimRight;
    assert z == "" || z[0] == '.';
    assert z != "" ==> ".svc" + z == ".svc." + z[1..];
  }

  // ---- what does not matter ----

  // The same character, or the same ASCII letter in the other case.
  predicate SameLetter(a: char, b: char) {
    || a == b
    || ('A' <= a <= 'Z' && b as int == a as int + 32)
    || ('A' <= b <= 'Z' && a as int == b as int + 32)
  }

  predicate SameLetters(s: string, t: string) {
    |s| == |t| && forall i :: 0 <= i < |s| ==> SameLetter(s[i], t[i])
  }

  lemma LettersAreNoBlanks(a: char, b: char)
    requires SameLetter(a, b)
    ensures IsSpace(a) == IsSpace(b) && (a == '.' <==> b == '.') && LowerChar(a) == LowerChar(b)
  {
  }

  lemma {:induction false} TrimLeftCase(s: string, t: string)
    requires SameLetters(s, t)
    ensures SameLetters(TrimLeft(s), TrimLeft(t))
  {
    if s != "" {
      LettersAreNoBlanks(s[0], t[0]);
      if IsSpace(s[0]) { TrimLeftCase(s[1..], t[1..]); }
    }
  }

  lemma {:induction false} TrimRightCase(s: string, t: string)
    requires SameLetters(s, t)
    ensures SameLetters(TrimRight(s), TrimRight(t))
  {
    if s != "" {
      LettersAreNoBlanks(s[|s| - 1], t[|t| - 1]);
      if IsSpace(s[|s| - 1]) { TrimRightCase(s[..|s| - 1], t[..|t| - 1]); }
    }
  }

  lemma LowerCase(s: string, t: string)
    requires SameLetters(s, t)
    ensures ToLower(TrimDot(s)) == ToLower(TrimDot(t))
  {
    forall i | 0 <= i < |s|
      ensures LowerChar(s[i]) == LowerChar(t[i]) && (s[i] == '.' <==> t[i] == '.')
    {
      LettersAreNoBlanks(s[i], t[i]);
    }
    hide LowerChar, SameLetter;
  }

  // Upper and lower case do not matter.
  lemma CaseIrrelevant(host: string, other: string, svc: string, ns: string)
    requires SameLetters(host, other)
    ensures ServiceHostMatches(host, svc, ns) <==> ServiceHostMatches(other, svc, ns)
  {
    TrimLeftCase(host, other);
    TrimRightCase(TrimLeft(host), TrimLeft(other));
    LowerCase(TrimRight(TrimLeft(host)), TrimRight(TrimLeft(other)));
    hide SameLetters, TrimLeft, TrimRight, TrimDot;
  }

  predicate Blank(s: string) {
    forall i :: 0 <= i < |s| ==> s[i] == ' ' || s[i] == '\t' || s[i] == '\n' || s[i] == '\r'
  }

  lemma {:induction false} TrimLeftBlank(b: string, s: string)
    requires Blank(b)
    ensures TrimLeft(b + s) == TrimLeft(s)
  {
    if b == "" {
      assert b + s == s;
    } else {
      assert (b + s)[1..] == b[1..] + s;
      TrimLeftBlank(b[1..], s);
    }
  }

  lemma {:induction false} TrimRightBlank(s: string, b: string)
    requires Blank(b)
    ensures TrimRight(s + b) == TrimRight(s)
    decreases |b|
  {
    if b == "" {
      assert s + b == s;
    } else {
      assert (s + b)[..|s + b| - 1] == s + b[..|b| - 1];
      TrimRightBlank(s, b[..|b| - 1]);
    }
  }

  lemma {:induction false} TrimLeftBefore(s: string, b: string)
    requires Blank(b)
    ensures TrimLeft(s + b) == if TrimLeft(s) == "" then "" else TrimLeft(s) + b
  {
    if s == "" {
      assert s + b == b + "";
      TrimLeftBlank(b, "");
    } else if IsSpace(s[0]) {
      assert (s + b)[1..] == s[1..] + b;
      TrimLeftBefore(s[1..], b);
    }
  }

  // Blanks around a host do not matter.
  lemma BlanksIrrelevant(before: string, host: string, after: string, svc: string, ns: string)
    requires Blank(before) && Blank(after)
    ensures ServiceHostMatches(before + (host + after), svc, ns) <==> ServiceHostMatches(host, svc, ns)
  {
    TrimLeftBlank(before, host + after);
    TrimLeftBefore(host, after);
    TrimRightBlank(TrimLeft(host), after);
    hide TrimLeft, TrimDot, ToLower, Blank;
  }
}
