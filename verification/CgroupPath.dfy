/**
  The cgroup path that systemd derives from "slice:prefix:name".
 */
module CgroupPath {
  import opened Paths

  // ---------------------------------------------------------------- the fields

  function FirstAt(s: string, c: char): (k: nat)
    ensures k <= |s| && (k < |s| ==> s[k] == c) && c !in s[..k]
  {
    if s == "" || s[0] == c then 0
    else
      var k := 1 + FirstAt(s[1..], c);
      assert s[..k] == [s[0]] + s[1..][..k - 1];
      k
  }

  // strings.Split(s, ":").
  function Fields(s: string): (r: seq<string>)
    ensures r != []
    decreases |s|
  {
    var k := FirstAt(s, ':');
    if k == |s| then [s] else [s[..k]] + Fields(s[k + 1..])
  }

  // ---------------------------------------------------------------- the path

  predicate Within(slice: string, ends: seq<nat>) {
    forall k | 0 <= k < |ends| :: ends[k] <= |slice|
  }

  // The positions of the dashes from i on; a dash in front does not count.
  function Dashes(slice: string, i: nat): (r: seq<nat>)
    requires i <= |slice|
    ensures Within(slice, r)
    decreases |slice| - i
  {
    if i == |slice| then [] else if slice[i] == '-' && i > 0 then [i] + Dashes(slice, i + 1) else Dashes(slice, i + 1)
  }

  function Slices(slice: string, ends: seq<nat>): seq<string>
    requires Within(slice, ends)
  {
    seq(|ends|, k requires 0 <= k < |ends| => slice[..ends[k]] + ".slice")
  }

  function Scope(fields: seq<string>): seq<string>
    requires fields != []
  {
    if |fields| > 1 then [Between(fields[1..], "-") + ".scope"] else []
  }

  function Elements(s: string): seq<string> {
    var fields := Fields(s);
    Slices(fields[0], Dashes(fields[0], 0)) + [fields[0]] + Scope(fields)
  }

  function CgroupPath(s: string): string {
    JoinAll(Elements(s))
  }

  lemma SlicesMore(slice: string, ends: seq<nat>, i: nat)
    requires i <= |slice| && Within(slice, ends)
    ensures Slices(slice, ends + [i]) == Slices(slice, ends) + [slice[..i] + ".slice"]
  {
  }

  // The loop over the slice part.
  method ParentSlices(slice: string) returns (cgPath: seq<string>)
    ensures cgPath == Slices(slice, Dashes(slice, 0))
  {
    cgPath := [];
    ghost var ends: seq<nat> := [];
    ghost var all := Dashes(slice, 0);
    assert [] + all == all;
    for i := 0 to |slice|
      invariant Within(slice, ends)
      invariant cgPath == Slices(slice, ends)
      invariant all == ends + Dashes(slice, i)
    {
      if slice[i] == '-' && i > 0 {
        SlicesMore(slice, ends, i);
        assert ends + ([i] + Dashes(slice, i + 1)) == ends + [i] + Dashes(slice, i + 1);
        cgPath := cgPath + [slice[..i] + ".slice"];
        ends := ends + [i];
      }
    }
    assert ends + [] == ends;
  }

  method ParseSystemdCgroupPath(s: string) returns (path: string)
    ensures path == CgroupPath(s)
  {
    var parts := Fields(s);
    var cgPath := ParentSlices(parts[0]);
    cgPath := cgPath + [parts[0]];
    if |parts| > 1 { cgPath := cgPath + [Between(parts[1..], "-") + ".scope"]; }
    assert cgPath == Elements(s);
    path := JoinAll(cgPath);
  }

  // ---------------------------------------------------------------- the parents

  lemma {:induction false} DashesAre(slice: string, i: nat)
    requires i <= |slice|
    ensures var r := Dashes(slice, i);
            && (forall k | 0 <= k < |r| :: i <= r[k] < |slice| && slice[r[k]] == '-' && r[k] > 0)
            && (forall k, l | 0 <= k < l < |r| :: r[k] < r[l])
            && (forall p | i <= p < |slice| && slice[p] == '-' && p > 0 :: p in r)
    decreases |slice| - i
  {
    if i < |slice| { DashesAre(slice, i + 1); }
  }

  // There is one parent for every dash but one in front, in order; each parent, less its suffix, is a
  // strict prefix of the next and of the slice, and ends just before a dash.
  lemma ParentsAreNested(s: string)
    ensures var slice, e := Fields(s)[0], Elements(s); var ends := Dashes(slice, 0);
            && |e| == |ends| + 1 + (if |Fields(s)| > 1 then 1 else 0) && e[|ends|] == slice
            && (forall k | 0 <= k < |ends| :: 0 < ends[k] < |slice| && slice[ends[k]] == '-'
                 && e[k] == slice[..ends[k]] + ".slice")
            && (forall k, l | 0 <= k < l < |ends| :: slice[..ends[k]] < slice[..ends[l]] < slice)
            && (forall p | 0 < p < |slice| && slice[p] == '-' :: p in ends)
  {
    DashesAre(Fields(s)[0], 0);
  }

  // ---------------------------------------------------------------- the components of the path

  predicate NoSlash(s: string) {
    '/' !in s
  }

  lemma {:induction false} FieldsNoSlash(s: string)
    requires NoSlash(s)
    ensures AreParts(Fields(s))
    decreases |s|
  {
    var k := FirstAt(s, ':');
    if k < |s| {
      assert NoSlash(s[..k]) && NoSlash(s[k + 1..]);
      FieldsNoSlash(s[k + 1..]);
    }
  }

  lemma {:induction false} BetweenNoSlash(parts: seq<string>)
    requires AreParts(parts)
    ensures NoSlash(Between(parts, "-"))
    decreases |parts|
  {
    if |parts| > 1 {
      assert parts[0] == parts[0];
      BetweenNoSlash(parts[1..]);
    }
  }

  lemma SuffixedIsName(s: string, suffix: string)
    requires NoSlash(s) && NoSlash(suffix) && |suffix| > 2
    ensures IsName(s + suffix)
  {
  }

  lemma ScopeIsName(s: string)
    requires NoSlash(s) && |Fields(s)| > 1
    ensures IsName(Between(Fields(s)[1..], "-") + ".scope")
  {
    FieldsNoSlash(s);
    BetweenNoSlash(Fields(s)[1..]);
    SuffixedIsName(Between(Fields(s)[1..], "-"), ".scope");
  }

  // No name to be made of: an empty slice part or ".".
  predicate Nameless(slice: string) {
    slice == "" || slice == "."
  }

  function Components(s: string): seq<string> {
    if Nameless(Fields(s)[0]) then Scope(Fields(s)) else Elements(s)
  }

  lemma ParentIsName(slice: string, k: nat)
    requires NoSlash(slice) && k < |Dashes(slice, 0)|
    ensures IsName(slice[..Dashes(slice, 0)[k]] + ".slice")
  {
    SuffixedIsName(slice[..Dashes(slice, 0)[k]], ".slice");
  }

  lemma DotsHaveNoDash()
    ensures Dashes("..", 0) == []
  {
    assert Dashes("..", 2) == [];
    assert Dashes("..", 1) == [];
  }

  lemma ComponentsAreNormal(s: string)
    requires NoSlash(s)
    ensures Normal(Lex(false, Components(s)))
  {
    var fields := Fields(s);
    var slice := fields[0];
    FieldsNoSlash(s);
    if |fields| > 1 { ScopeIsName(s); }
    if !Nameless(slice) {
      var ends, c := Dashes(slice, 0), Components(s);
      DashesAre(slice, 0);
      assert NoSlash(fields[0]);
      if slice == ".." { DotsHaveNoDash(); }
      forall k | 0 <= k < |c| ensures IsName(c[k]) || (c[k] == ".." && k == 0) {
        if k < |ends| { ParentIsName(slice, k); }
        else if k == |ends| { assert c[k] == slice; }
        else { assert c[k] == Scope(fields)[0]; }
      }
    }
  }

  // For input without slashes the path consists of exactly these components.
  lemma PathHasComponents(s: string)
    requires NoSlash(s)
    ensures Normal(Lex(false, Components(s)))
    ensures CgroupPath(s) == if s == "" then "" else Show(Lex(false, Components(s)))
  {
    ComponentsAreNormal(s);
    FieldsNoSlash(s);
    var e, c, start := Elements(s), Components(s), Lex(false, []);
    assert [] + c == c;
    PushNormal(start, c);
    if !Nameless(Fields(s)[0]) {
      JoinedClean(e);
    } else {
      DashesAre(Fields(s)[0], 0);
      assert Dashes(Fields(s)[0], 0) == [] && e == [] + [Fields(s)[0]] + c;
      assert e == [Fields(s)[0]] + c;
      if Fields(s)[0] == "." {
        PushAllConcat(start, ["."], c);
        assert ["."][1..] == [];
        JoinedClean(e);
      } else {
        assert e[1..] == c;
        assert JoinAll(e) == JoinAll(c);
        if c != [] { JoinedClean(c); } else { assert s == ""; }
      }
    }
  }

  lemma JoinedClean(parts: seq<string>)
    requires parts != [] && parts[0] != "" && AreParts(parts)
    ensures JoinAll(parts) == Show(PushAll(Lex(false, []), parts))
  {
    SplitGlue(parts);
    assert !IsAbs(Glue(parts));
  }

  // ---------------------------------------------------------------- different inputs, different paths

  lemma {:induction false} FieldsJoin(s: string)
    ensures Between(Fields(s), ":") == s
    decreases |s|
  {
    var k := FirstAt(s, ':');
    if k < |s| {
      FieldsJoin(s[k + 1..]);
      assert s == s[..k] + ":" + s[k + 1..];
      assert Fields(s)[1..] == Fields(s[k + 1..]);
    } else {
      assert s[..k] == s;
    }
  }

  predicate Dashless(parts: seq<string>) {
    forall i | 0 <= i < |parts| :: '-' !in parts[i]
  }

  lemma {:induction false} DashJoinIsInjective(a: seq<string>, b: seq<string>)
    requires |a| == |b| && Dashless(a) && Dashless(b) && Between(a, "-") == Between(b, "-")
    ensures a == b
    decreases |a|
  {
    if |a| > 1 {
      var x, y := Between(a[1..], "-"), Between(b[1..], "-");
      FirstDash(a[0], x);
      FirstDash(b[0], y);
      assert a[0] == Between(a, "-")[..|a[0]|] == b[0];
      assert x == Between(a, "-")[|a[0]| + 1..] == y;
      DashJoinIsInjective(a[1..], b[1..]);
      assert a == [a[0]] + a[1..] && b == [b[0]] + b[1..];
    }
  }

  lemma {:induction false} FirstDash(p: string, x: string)
    requires '-' !in p
    ensures FirstAt(p + "-" + x, '-') == |p|
  {
    var s := p + "-" + x;
    if p != "" {
      assert s[1..] == p[1..] + "-" + x && s[0] == p[0] && p[0] in p;
      FirstDash(p[1..], x);
    }
  }

  // The same path comes from the same input, except that an empty slice part and "." give the same
  // path in front of the same scope.
  predicate OnlyNameDiffers(s: string, t: string) {
    var f, g := Fields(s), Fields(t);
    && |f| > 1 && f[1..] == g[1..] && Nameless(f[0]) && Nameless(g[0])
  }

  lemma SameScope(f: seq<string>, g: seq<string>)
    requires |f| == |g| > 1 && Dashless(f[1..]) && Dashless(g[1..]) && Scope(f) == Scope(g)
    ensures f[1..] == g[1..]
  {
    var x, y := Between(f[1..], "-"), Between(g[1..], "-");
    assert x + ".scope" == Scope(f)[0] == y + ".scope";
    assert x == (x + ".scope")[..|x + ".scope"| - 6] == y;
    DashJoinIsInjective(f[1..], g[1..]);
  }

  lemma SameComponents(s: string, t: string)
    requires |Fields(s)| == |Fields(t)| && Dashless(Fields(s)[1..]) && Dashless(Fields(t)[1..])
             && Components(s) == Components(t)
    ensures Fields(s)[1..] == Fields(t)[1..]
            && (Fields(s)[0] == Fields(t)[0] || (Nameless(Fields(s)[0]) && Nameless(Fields(t)[0])))
  {
    var f, g, c := Fields(s), Fields(t), Components(s);
    if |f| > 1 {
      assert Scope(f) == [c[|c| - 1]] == Scope(g);
      SameScope(f, g);
    }
    var n := if |f| > 1 then 1 else 0;
    if !Nameless(f[0]) { assert c[|c| - 1 - n] == f[0]; }
    if !Nameless(g[0]) { assert Components(t)[|c| - 1 - n] == g[0]; }
  }

  // For input without slashes, with the same number of fields and no dash in the scope fields, the
  // path tells the input, but for the name that is missing or ".".
  lemma PathsAreInjective(s: string, t: string)
    requires NoSlash(s) && NoSlash(t) && |Fields(s)| == |Fields(t)|
    requires Dashless(Fields(s)[1..]) && Dashless(Fields(t)[1..])
    ensures CgroupPath(s) == CgroupPath(t) <==> s == t || OnlyNameDiffers(s, t)
  {
    PathHasComponents(s);
    PathHasComponents(t);
    FieldsJoin(s);
    FieldsJoin(t);
    var f, g := Fields(s), Fields(t);
    if OnlyNameDiffers(s, t) {
      assert Scope(f) == Scope(g);
    } else if CgroupPath(s) == CgroupPath(t) {
      ShowIsAbs(Lex(false, Components(s)));
      ShowIsAbs(Lex(false, Components(t)));
      if s != "" && t != "" {
        ShowIsInjective(Lex(false, Components(s)), Lex(false, Components(t)));
        SameComponents(s, t);
        assert f == [f[0]] + f[1..] && g == [g[0]] + g[1..];
      }
    }
  }
}
