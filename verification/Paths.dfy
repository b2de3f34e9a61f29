/**
  Slash-separated paths as Go's strings and path/filepath packages treat them: splitting at every
  slash, lexical cleaning and joining, and prefix tests on bytes.
 */
module Paths {

  predicate AreParts(parts: seq<string>) {
    forall i | 0 <= i < |parts| :: '/' !in parts[i]
  }

  // The parts of c followed by a string with parts r.
  function Grow(c: char, r: seq<string>): seq<string>
    requires r != []
  {
    if c == '/' then [""] + r else [[c] + r[0]] + r[1..]
  }

  // strings.Split(s, "/").
  function Split(s: string): (r: seq<string>)
    ensures r != [] && AreParts(r)
  {
    if s == "" then [""] else Grow(s[0], Split(s[1..]))
  }

  // strings.Join(parts, sep).
  function Between(parts: seq<string>, sep: string): string {
    if parts == [] then "" else if |parts| == 1 then parts[0] else parts[0] + sep + Between(parts[1..], sep)
  }

  // strings.Join(parts, "/").
  function Glue(parts: seq<string>): string {
    Between(parts, "/")
  }

  // A cleaned path: its components, and whether it starts at the root.
  datatype Lex = Lex(abs: bool, comps: seq<string>)

  predicate IsName(p: string) {
    p != "" && p != "." && p != ".." && '/' !in p
  }

  // Only a relative path keeps "..", and only in front.
  predicate Normal(l: Lex) {
    forall i | 0 <= i < |l.comps| ::
      IsName(l.comps[i]) || (l.comps[i] == ".." && !l.abs && forall j | 0 <= j < i :: l.comps[j] == "..")
  }

  function Push(l: Lex, part: string): (r: Lex)
    requires Normal(l) && '/' !in part
    ensures Normal(r) && r.abs == l.abs
  {
    if part == "" || part == "." then l
    else if part != ".." then Lex(l.abs, l.comps + [part])
    else if |l.comps| > 0 && l.comps[|l.comps| - 1] != ".." then Lex(l.abs, l.comps[..|l.comps| - 1])
    else if l.abs then l
    else Lex(l.abs, l.comps + [part])
  }

  function PushAll(l: Lex, parts: seq<string>): (r: Lex)
    requires Normal(l) && AreParts(parts)
    ensures Normal(r) && r.abs == l.abs
    decreases |parts|
  {
    if parts == [] then l else PushAll(Push(l, parts[0]), parts[1..])
  }

  predicate IsAbs(s: string) {
    s != "" && s[0] == '/'
  }

  predicate HasPrefix(s: string, prefix: string) {
    prefix <= s
  }

  function Parse(s: string): (l: Lex)
    ensures Normal(l) && l.abs == IsAbs(s)
  {
    PushAll(Lex(IsAbs(s), []), Split(s))
  }

  function Show(l: Lex): string {
    if l.abs then "/" + Glue(l.comps) else if l.comps == [] then "." else Glue(l.comps)
  }

  // filepath.Clean.
  function Clean(s: string): string {
    Show(Parse(s))
  }

  // filepath.Join of two elements.
  function Join(a: string, b: string): string {
    if a == "" && b == "" then "" else if a == "" then Clean(b) else Clean(a + "/" + b)
  }

  // filepath.Join of any number of elements: leading empty ones are dropped.
  function JoinAll(parts: seq<string>): string {
    if parts == [] then "" else if parts[0] == "" then JoinAll(parts[1..]) else Clean(Glue(parts))
  }

  // filepath.Dir.
  function Dir(s: string): string {
    Clean(DirPart(s))
  }

  // Everything up to and including the last slash.
  function DirPart(s: string): (r: string)
    ensures r <= s && (r == "" || r[|r| - 1] == '/')
  {
    if s == "" || s[|s| - 1] == '/' then s else DirPart(s[..|s| - 1])
  }

  // ---------------------------------------------------------------- splitting and gluing

  lemma GrowConcat(c: char, r: seq<string>, q: seq<string>)
    requires r != []
    ensures Grow(c, r + q) == Grow(c, r) + q
  {
    assert (r + q)[1..] == r[1..] + q;
  }

  lemma {:induction false} SplitConcat(a: string, b: string)
    ensures Split(a + "/" + b) == Split(a) + Split(b)
  {
    var s := a + "/" + b;
    if a == "" {
      assert s[1..] == b;
    } else {
      assert s[1..] == a[1..] + "/" + b;
      SplitConcat(a[1..], b);
      GrowConcat(a[0], Split(a[1..]), Split(b));
    }
  }

  lemma {:induction false} SplitSingle(p: string)
    requires '/' !in p
    ensures Split(p) == [p]
  {
    if p != "" {
      SplitSingle(p[1..]);
      assert [p[0]] + p[1..] == p;
    }
  }

  lemma {:induction false} SplitGlue(parts: seq<string>)
    requires parts != [] && AreParts(parts)
    ensures Split(Glue(parts)) == parts
  {
    SplitSingle(parts[0]);
    if |parts| > 1 {
      SplitGlue(parts[1..]);
      SplitConcat(parts[0], Glue(parts[1..]));
    }
  }

  // ---------------------------------------------------------------- cleaning

  lemma {:induction false} PushAllConcat(l: Lex, a: seq<string>, b: seq<string>)
    requires Normal(l) && AreParts(a) && AreParts(b)
    ensures PushAll(l, a + b) == PushAll(PushAll(l, a), b)
    decreases |a|
  {
    if a == [] {
      assert a + b == b;
    } else {
      assert (a + b)[1..] == a[1..] + b;
      PushAllConcat(Push(l, a[0]), a[1..], b);
    }
  }

  lemma PushNext(l: Lex, more: seq<string>)
    requires Normal(l) && Normal(Lex(l.abs, l.comps + more)) && more != []
    ensures '/' !in more[0] && Push(l, more[0]) == Lex(l.abs, l.comps + [more[0]])
  {
    var all := l.comps + more;
    assert all[|l.comps|] == more[0];
    if more[0] == ".." && |l.comps| > 0 { assert all[|l.comps| - 1] == ".."; }
  }

  // Components that are already normal are pushed one after another.
  lemma {:induction false} PushNormal(l: Lex, more: seq<string>)
    requires Normal(l) && Normal(Lex(l.abs, l.comps + more))
    ensures AreParts(more) && PushAll(l, more) == Lex(l.abs, l.comps + more)
    decreases |more|
  {
    assert forall i | 0 <= i < |more| :: more[i] == (l.comps + more)[|l.comps| + i];
    if more == [] {
      assert l.comps + more == l.comps;
    } else {
      assert l.comps + more == l.comps + [more[0]] + more[1..];
      PushNext(l, more);
      PushNormal(Lex(l.abs, l.comps + [more[0]]), more[1..]);
    }
  }

  lemma ShowIsAbs(l: Lex)
    requires Normal(l)
    ensures Show(l) != "" && IsAbs(Show(l)) == l.abs
  {
    if !l.abs && |l.comps| > 1 { assert Glue(l.comps)[0] == l.comps[0][0]; }
  }

  lemma SplitShow(l: Lex)
    requires Normal(l)
    ensures Split(Show(l)) == (if l.comps == [] then (if l.abs then ["", ""] else ["."])
                               else if l.abs then [""] + l.comps else l.comps)
  {
    SplitSingle("");
    SplitSingle(".");
    SplitConcat("", Glue(l.comps));
    assert "" + "/" + Glue(l.comps) == "/" + Glue(l.comps);
    if l.comps != [] { SplitGlue(l.comps); }
  }

  lemma ParseShow(l: Lex)
    requires Normal(l)
    ensures Parse(Show(l)) == l
  {
    ShowIsAbs(l);
    SplitShow(l);
    var start := Lex(l.abs, []);
    assert [] + l.comps == l.comps;
    PushNormal(start, l.comps);
    if l.abs {
      if l.comps == [] {
        PushAllConcat(start, [""], [""]);
        assert [""] + [""] == ["", ""];
      } else {
        PushAllConcat(start, [""], l.comps);
      }
    }
  }

  // Joining is pushing the parts of the second path onto the cleaned first one.
  lemma JoinPushes(l: Lex, sub: string)
    requires Normal(l)
    ensures Join(Show(l), sub) == Show(PushAll(l, Split(sub)))
  {
    ShowIsAbs(l);
    var s := Show(l);
    SplitConcat(s, sub);
    ParseShow(l);
    assert IsAbs(s + "/" + sub) == l.abs;
    PushAllConcat(Lex(l.abs, []), Split(s), Split(sub));
  }

  // The path a join starts from may as well be cleaned first.
  lemma JoinCleans(a: string, sub: string)
    requires a != ""
    ensures Join(a, sub) == Join(Clean(a), sub) == Show(PushAll(Parse(a), Split(sub)))
  {
    JoinPushes(Parse(a), sub);
    SplitConcat(a, sub);
    assert IsAbs(a + "/" + sub) == IsAbs(a);
    PushAllConcat(Lex(IsAbs(a), []), Split(a), Split(sub));
  }

  // Different cleaned paths are different strings.
  lemma ShowIsInjective(l: Lex, r: Lex)
    requires Normal(l) && Normal(r) && Show(l) == Show(r)
    ensures l == r
  {
    ParseShow(l);
    ParseShow(r);
  }

  // ---------------------------------------------------------------- the directory part

  lemma {:induction false} DirPartOf(s: string, n: string)
    requires '/' !in n && (s == "" || s[|s| - 1] == '/')
    ensures DirPart(s + n) == s
  {
    if n == "" {
      assert s + n == s;
    } else {
      assert (s + n)[..|s + n| - 1] == s + n[..|n| - 1];
      assert (s + n)[|s + n| - 1] == n[|n| - 1] && n[|n| - 1] in n;
      DirPartOf(s, n[..|n| - 1]);
    }
  }

  lemma {:induction false} GlueSnoc(parts: seq<string>, n: string)
    requires parts != []
    ensures Glue(parts + [n]) == Glue(parts) + "/" + n
  {
    if |parts| == 1 {
      assert (parts + [n])[1..] == [n] && Glue([n]) == n && Glue(parts + [n]) == parts[0] + "/" + Glue([n]);
    } else {
      assert (parts + [n])[1..] == parts[1..] + [n];
      GlueSnoc(parts[1..], n);
    }
  }

  // The directory of a cleaned path is the path without its last name.
  lemma DirDropsName(l: Lex, n: string)
    requires Normal(l) && IsName(n)
    ensures Dir(Show(Lex(l.abs, l.comps + [n]))) == Show(l)
  {
    var s := Show(Lex(l.abs, l.comps + [n]));
    if l.comps != [] {
      GlueSnoc(l.comps, n);
      assert s == Show(l) + "/" + n;
      DirPartOf(Show(l) + "/", n);
      JoinPushes(l, "");
      SplitSingle("");
      assert PushAll(l, [""]) == l by { assert [""][1..] == []; }
      ShowIsAbs(l);
      assert Show(l) + "/" + "" == Show(l) + "/";
    } else if l.abs {
      assert l.comps + [n] == [n] && s == "/" + n;
      DirPartOf("/", n);
      ParseShow(l);
    } else {
      assert l.comps + [n] == [n] && s == "" + n;
      DirPartOf("", n);
      SplitSingle("");
      assert PushAll(l, [""]) == l by { assert [""][1..] == []; }
    }
  }
}
