/**
  What follows for mount destinations: conditions on the tree alone, resolving twice, the check for
  escapes, and the inputs on which one level of links is not enough.
 */
module Destinations {
  import opened Options
  import opened Paths
  import opened HostFs
  import opened Mkdir
  import opened Resolve

  // ---------------------------------------------------------------- conditions on the tree

  predicate NoDotDot(parts: seq<string>) {
    forall i | 0 <= i < |parts| :: parts[i] != ".."
  }

  predicate LinkPlain(fs: Fs, base: Place, rootfs: string, at: Place)
    requires at != [] && IsLink(fs, base + at)
  {
    var t := fs[base + at].target;
    !(IsAbs(t) && HasPrefix(t, rootfs)) && Plain(fs, base, Origin(Above(at), t), Split(t))
  }

  // Every link below the root has a target that leads along no further link and not above the root,
  // and that does not start with the root path.
  ghost predicate LinksPlain(fs: Fs, base: Place, rootfs: string) {
    forall at: Place | at != [] && IsLink(fs, base + at) :: LinkPlain(fs, base, rootfs, at)
  }

  lemma NothingBelowMissing(fs: Fs, base: Place, at: Place, e: string)
    requires WellFormed(fs) && base + at !in fs
    ensures base + (at + [e]) !in fs
  {
    var q := base + (at + [e]);
    assert q[..|q| - 1] == base + at && (q in fs ==> Rooted(fs, q));
  }

  lemma {:induction false} PlainMissing(fs: Fs, base: Place, at: Place, parts: seq<string>)
    requires WellFormed(fs) && base + at !in fs && NoDotDot(parts)
    ensures Plain(fs, base, at, parts)
    decreases |parts|
  {
    if parts != [] {
      if parts[0] == "" || parts[0] == "." {
        PlainMissing(fs, base, at, parts[1..]);
      } else {
        NothingBelowMissing(fs, base, at, parts[0]);
        PlainMissing(fs, base, at + [parts[0]], parts[1..]);
      }
    }
  }

  // Without ".." in the destination, plain links are all it takes.
  lemma {:induction false} PlainLinksAreTame(fs: Fs, base: Place, rootfs: string, at: Place, entries: seq<string>)
    requires WellFormed(fs) && LinksPlain(fs, base, rootfs) && NoDotDot(entries)
    ensures Tame(fs, base, rootfs, at, entries)
    decreases |entries|
  {
    if entries != [] {
      var e, rest := entries[0], entries[1..];
      LexicalOne(at, e);
      var next := Onto(fs, base, at, e);
      if MeetsLink(fs, base, at, e) { assert LinkPlain(fs, base, rootfs, at + [e]) && Above(at + [e]) == at; }
      if Goes(fs, base, at, e) { PlainLinksAreTame(fs, base, rootfs, next, rest); }
      else { PlainMissing(fs, base, next, rest); }
    }
  }

  lemma {:induction false} TrimKeepsNoDotDot(dst: string)
    requires NoDotDot(Split(dst))
    ensures NoDotDot(Split(TrimSlash(dst)))
  {
    SplitTrimmed(dst);
    var entries := Split(TrimSlash(dst));
    if IsAbs(dst) { assert forall i | 0 <= i < |entries| :: Split(dst)[i + 1] == entries[i]; }
  }

  lemma PlainLinksResolve(fs: Fs, cwd: Place, rootfs: string, base: Place, dst: string, budget: nat)
    requires WellFormed(fs) && IsFolder(fs, cwd) && RootAt(fs, cwd, rootfs, base)
    requires LinksPlain(fs, base, rootfs) && NoDotDot(Split(dst)) && budget >= |Split(dst)|
    ensures var r := Chroot(fs, base, [], Split(dst), budget);
            && r.Some? && Clear(fs, base, r.value)
            && Destination(fs, cwd, rootfs, dst).0 == Show(Below(rootfs, r.value))
  {
    TrimKeepsNoDotDot(dst);
    PlainLinksAreTame(fs, base, rootfs, [], Split(TrimSlash(dst)));
    ResolvesLikeChroot(fs, cwd, rootfs, base, dst, budget);
  }

  // ---------------------------------------------------------------- resolving twice

  lemma {:induction false} ClearIsTame(fs: Fs, base: Place, rootfs: string, at: Place, rest: seq<string>)
    requires AllNames(at + rest) && Clear(fs, base, at + rest)
    ensures Tame(fs, base, rootfs, at, rest) && Plain(fs, base, at, rest) && Lexical(at, rest) == at + rest
    decreases |rest|
  {
    if rest == [] {
      assert at + rest == at;
    } else {
      var next := at + [rest[0]];
      assert at + rest == next + rest[1..];
      assert IsName((at + rest)[|at|]);
      assert (at + rest)[..|next|] == next;
      LexicalOne(at, rest[0]);
      ClearIsTame(fs, base, rootfs, next, rest[1..]);
    }
  }

  lemma EntriesOf(at: Place)
    requires AllNames(at)
    ensures Normal(Lex(true, at)) && TrimSlash(Show(Lex(true, at))) == Glue(at)
    ensures Split(Glue(at)) == if at == [] then [""] else at
  {
    SplitSingle("");
    if at != [] { SplitGlue(at); }
  }

  // A place below the root that no link leads to resolves to itself.
  lemma ClearResolvesToItself(fs: Fs, cwd: Place, rootfs: string, base: Place, at: Place)
    requires WellFormed(fs) && IsFolder(fs, cwd) && RootAt(fs, cwd, rootfs, base)
    requires AllNames(at) && Clear(fs, base, at)
    ensures Destination(fs, cwd, rootfs, Show(Lex(true, at))).0 == Show(Below(rootfs, at))
  {
    EntriesOf(at);
    assert Parse(rootfs).comps + [] == Parse(rootfs).comps && [] + at == at;
    var entries := Split(Glue(at));
    ClearIsTame(fs, base, rootfs, [], at);
    assert [""][1..] == [];
    if at == [] { EmptyEntry(fs, base, rootfs); }
    ResolvesOn(fs, cwd, rootfs, base, rootfs, [], entries, |entries|);
    ChrootPlain(fs, base, [], entries, [], |entries|);
    assert entries + [] == entries;
  }

  lemma EmptyEntry(fs: Fs, base: Place, rootfs: string)
    ensures Tame(fs, base, rootfs, [], [""]) && Plain(fs, base, [], [""]) && Lexical([], [""]) == []
  {
    LexicalOne([], "");
    assert [""][1..] == [];
  }

  // Resolving the result of a resolution, taken relative to the root, changes nothing.
  lemma ResolvingAgain(fs: Fs, cwd: Place, rootfs: string, base: Place, dst: string) returns (at: Place)
    requires WellFormed(fs) && IsFolder(fs, cwd) && RootAt(fs, cwd, rootfs, base)
    requires Tame(fs, base, rootfs, [], Split(TrimSlash(dst)))
    ensures AllNames(at) && Normal(Below(rootfs, at)) && Destination(fs, cwd, rootfs, dst).0 == Show(Below(rootfs, at))
    ensures Destination(fs, cwd, rootfs, Show(Lex(true, at))).0 == Destination(fs, cwd, rootfs, dst).0
  {
    ResolvesLikeChroot(fs, cwd, rootfs, base, dst, |Split(dst)|);
    at := Chroot(fs, base, [], Split(dst), |Split(dst)|).value;
    ClearResolvesToItself(fs, cwd, rootfs, base, at);
  }

  // ---------------------------------------------------------------- tameness is needed

  // No link leads up or to an absolute path.
  ghost predicate LinksForward(fs: Fs) {
    forall at: Place | IsLink(fs, at) :: !IsAbs(fs[at].target) && NoDotDot(Split(fs[at].target))
  }

  // Without ".." parts only lead further down.
  lemma {:induction false} ForwardExtends(base: Place, at: Place, parts: seq<string>)
    requires NoDotDot(parts)
    ensures Plain(map[], base, at, parts) && at <= Lexical(at, parts)
    decreases |parts|
  {
    if parts != [] {
      ForwardExtends(base, if parts[0] == "" || parts[0] == "." then at else at + [parts[0]], parts[1..]);
    }
  }

  lemma PushForward(rootfs: string, at: Place, parts: seq<string>)
    requires Normal(Below(rootfs, at)) && AllNames(at) && AreParts(parts) && NoDotDot(parts)
    ensures var end := Lexical(at, parts);
            at <= end && AllNames(end) && Normal(Below(rootfs, end))
                && PushAll(Below(rootfs, at), parts) == Below(rootfs, end)
  {
    ForwardExtends([], at, parts);
    PushPlain(map[], [], Parse(rootfs), at, parts);
  }

  lemma NotClearFurther(fs: Fs, base: Place, at: Place, end: Place)
    requires !Clear(fs, base, at) && at <= end
    ensures !Clear(fs, base, end)
  {
    var k :| 0 < k <= |at| && IsLink(fs, base + at[..k]);
    assert end[..k] == at[..k];
  }

  lemma {:induction false} NotPlainNotClear(fs: Fs, base: Place, at: Place, parts: seq<string>)
    requires NoDotDot(parts) && !Plain(fs, base, at, parts)
    ensures !Clear(fs, base, Lexical(at, parts))
    decreases |parts|
  {
    if parts[0] == "" || parts[0] == "." {
      NotPlainNotClear(fs, base, at, parts[1..]);
    } else {
      var next := at + [parts[0]];
      if IsLink(fs, base + next) {
        ForwardExtends(base, next, parts[1..]);
        assert next[..|next|] == next && !Clear(fs, base, next);
        NotClearFurther(fs, base, next, Lexical(next, parts[1..]));
      } else {
        NotPlainNotClear(fs, base, next, parts[1..]);
      }
    }
  }

  // Wherever the resolver is below the root, it only goes further down.
  lemma EntryForward(fs: Fs, cwd: Place, rootfs: string, current: string, at: Place, e: string) returns (next: Place)
    requires LinksForward(fs) && current != "" && Parse(current) == Below(rootfs, at) && Normal(Below(rootfs, at))
             && AllNames(at)
    requires '/' !in e && e != ".."
    ensures at <= next && AllNames(next) && Normal(Below(rootfs, next))
    ensures ResolveEntry(fs, cwd, rootfs, current, e).0 == Show(Below(rootfs, next))
  {
    var p := Join(current, e);
    JoinCleans(current, e);
    SplitSingle(e);
    PushForward(rootfs, at, [e]);
    next := Lexical(at, [e]);
    var node := Lstat(fs, cwd, p);
    if node.Some? && node.value.Link? {
      var t := node.value.target;
      assert IsLink(fs, LookUp(fs, cwd, p, false).at);
      JoinCleans(current, t);
      PushForward(rootfs, at, Split(t));
      next := Lexical(at, Split(t));
      ParseShow(Below(rootfs, next));
    }
  }

  lemma {:induction false} ResolvesForward(fs: Fs, cwd: Place, rootfs: string, current: string, at: Place,
        entries: seq<string>)
    returns (end: Place)
    requires LinksForward(fs) && current == Show(Below(rootfs, at)) && Normal(Below(rootfs, at)) && AllNames(at)
    requires AreParts(entries) && NoDotDot(entries)
    ensures at <= end && AllNames(end) && Normal(Below(rootfs, end))
    ensures ResolveFrom(fs, cwd, rootfs, current, entries).0 == Show(Below(rootfs, end))
    decreases |entries|
  {
    end := at;
    if entries != [] {
      ShowIsAbs(Below(rootfs, at));
      ParseShow(Below(rootfs, at));
      var next := EntryForward(fs, cwd, rootfs, current, at, entries[0]);
      var (p, ok) := ResolveEntry(fs, cwd, rootfs, current, entries[0]);
      if ok {
        end := ResolvesForward(fs, cwd, rootfs, p, next, entries[1..]);
      } else {
        RestJoined(Below(rootfs, next), entries[1..]);
        PushForward(rootfs, next, entries[1..]);
        end := Lexical(next, entries[1..]);
      }
    }
  }

  // The lookup of a proper name below the root sees the node of that name.
  lemma SeesName(fs: Fs, cwd: Place, rootfs: string, base: Place, current: string, at: Place, e: string)
    requires Standing(fs, cwd, rootfs, base, current, at) && IsName(e)
    ensures AllNames(at + [e]) && Normal(Below(rootfs, at + [e])) && Join(current, e) == Show(Below(rootfs, at + [e]))
    ensures Lstat(fs, cwd, Join(current, e)) == if base + (at + [e]) in fs then Some(fs[base + (at + [e])]) else None
    ensures IsLink(fs, base + (at + [e])) ==> !Clear(fs, base, at + [e])
  {
    JoinEntry(fs, cwd, rootfs, base, current, at, e);
    EntryClear(fs, base, at, e);
    LexicalOne(at, e);
    LstatBelow(fs, cwd, rootfs, base, at + [e]);
    assert (at + [e])[..|at + [e]|] == at + [e];
  }

  // A link met whose target leads along another link is where the resolver leaves clear ground.
  lemma WildEntry(fs: Fs, cwd: Place, rootfs: string, base: Place, current: string, at: Place, e: string)
    requires Standing(fs, cwd, rootfs, base, current, at) && LinksForward(fs)
    requires '/' !in e && e != ".." && !TameEntry(fs, base, rootfs, at, e)
    ensures var next := Onto(fs, base, at, e);
            && ResolveEntry(fs, cwd, rootfs, current, e) == (Show(Below(rootfs, next)), true)
            && AllNames(next) && Normal(Below(rootfs, next)) && !Clear(fs, base, next)
  {
    var t := fs[base + (at + [e])].target;
    SeesName(fs, cwd, rootfs, base, current, at, e);
    JoinCleans(current, t);
    PushForward(rootfs, at, Split(t));
    ParseShow(Below(rootfs, Lexical(at, Split(t))));
    NotPlainNotClear(fs, base, at, Split(t));
  }

  lemma {:induction false} WildIsNotClear(fs: Fs, cwd: Place, rootfs: string, base: Place, current: string,
        at: Place, entries: seq<string>)
    returns (end: Place)
    requires Standing(fs, cwd, rootfs, base, current, at) && LinksForward(fs)
    requires AreParts(entries) && NoDotDot(entries) && !Tame(fs, base, rootfs, at, entries)
    ensures AllNames(end) && Normal(Below(rootfs, end)) && !Clear(fs, base, end)
    ensures ResolveFrom(fs, cwd, rootfs, current, entries).0 == Show(Below(rootfs, end))
    decreases |entries|
  {
    var e, rest := entries[0], entries[1..];
    var next := Onto(fs, base, at, e);
    if !TameEntry(fs, base, rootfs, at, e) {
      WildEntry(fs, cwd, rootfs, base, current, at, e);
      end := ResolvesForward(fs, cwd, rootfs, Show(Below(rootfs, next)), next, rest);
      NotClearFurther(fs, base, next, end);
    } else {
      if MeetsLink(fs, base, at, e) { LinkEntry(fs, cwd, rootfs, base, current, at, e); }
      else { PlainEntry(fs, cwd, rootfs, base, current, at, e); }
      EntryStays(fs, cwd, rootfs, base, current, at, e);
      if !Goes(fs, base, at, e) { PlainMissing(fs, base, next, rest); }
      end := WildIsNotClear(fs, cwd, rootfs, base, Show(Below(rootfs, next)), next, rest);
    }
  }

  // Where neither the destination nor any link leads up or to an absolute path, the result is clear of
  // links exactly on tame inputs.
  lemma ClearExactlyIfTame(fs: Fs, cwd: Place, rootfs: string, base: Place, dst: string) returns (at: Place)
    requires WellFormed(fs) && IsFolder(fs, cwd) && RootAt(fs, cwd, rootfs, base)
    requires LinksForward(fs) && NoDotDot(Split(dst))
    ensures AllNames(at) && Normal(Below(rootfs, at)) && Destination(fs, cwd, rootfs, dst).0 == Show(Below(rootfs, at))
    ensures Clear(fs, base, at) <==> Tame(fs, base, rootfs, [], Split(TrimSlash(dst)))
  {
    TrimKeepsNoDotDot(dst);
    if Tame(fs, base, rootfs, [], Split(TrimSlash(dst))) {
      ResolvesLikeChroot(fs, cwd, rootfs, base, dst, |Split(dst)|);
      at := Chroot(fs, base, [], Split(dst), |Split(dst)|).value;
    } else {
      assert Parse(rootfs).comps + [] == Parse(rootfs).comps;
      at := WildIsNotClear(fs, cwd, rootfs, base, rootfs, [], Split(TrimSlash(dst)));
    }
  }

  // ---------------------------------------------------------------- the check for escapes

  lemma {:induction false} GlueConcat(a: seq<string>, b: seq<string>)
    requires a != []
    ensures Glue(a) <= Glue(a + b)
    decreases |a|
  {
    if |a| == 1 {
      if b != [] { assert (a + b)[1..] == b; } else { assert a + b == a; }
    } else {
      assert (a + b)[1..] == a[1..] + b;
      GlueConcat(a[1..], b);
    }
  }

  // No destination below a clean root path is refused.
  lemma BelowHasPrefix(rootfs: string, at: Place)
    requires Clean(rootfs) == rootfs && rootfs != "."
    ensures HasPrefix(Show(Below(rootfs, at)), rootfs)
  {
    var l := Parse(rootfs);
    if l.comps != [] { GlueConcat(l.comps, at); }
  }

  // The test compares bytes: root's last component need only be the beginning of its counterpart.
  predicate BytesBelow(root: Lex, l: Lex) {
    root.comps == [] ||
    (var k := |root.comps| - 1; k < |l.comps| && l.comps[..k] == root.comps[..k] && root.comps[k] <= l.comps[k])
  }

  predicate Inside(root: Lex, l: Lex) {
    root.comps <= l.comps && AllNames(l.comps[|root.comps|..])
  }

  // A component that only begins like the last one of the root stands where that should.
  predicate Beside(root: Lex, l: Lex) {
    root.comps != [] && BytesBelow(root, l) && root.comps[|root.comps| - 1] < l.comps[|root.comps| - 1]
  }

  // Only a relative root of nothing but ".." can have a ".." below it.
  predicate Over(root: Lex, l: Lex) {
    root.comps < l.comps && l.comps[|root.comps|] == ".."
  }

  lemma FirstThenRest<T>(a: T, x: seq<T>, c: T, y: seq<T>)
    ensures [a] + x <= [c] + y <==> a == c && x <= y
  {
    assert ([a] + x)[1..] == x && ([c] + y)[1..] == y && ([a] + x)[0] == a;
    assert forall i | 0 <= i < |x| :: ([a] + x)[i + 1] == x[i];
  }

  lemma {:induction false} BeforeSlash(a: string, x: string, c: string, y: string)
    requires '/' !in a && '/' !in c
    ensures a + "/" + x <= c + "/" + y <==> a == c && x <= y
    decreases |a|
  {
    if a == "" || c == "" {
      if a == c { assert "" + "/" == ['/']; FirstThenRest('/', x, '/', y); }
      else if c != "" { assert (c + "/" + y)[0] == c[0] && ("" + "/" + x)[0] == '/' && c[0] in c; }
      else { assert (a + "/" + x)[0] == a[0] && ("" + "/" + y)[0] == '/' && a[0] in a; }
    } else {
      assert a + "/" + x == [a[0]] + (a[1..] + "/" + x) && c + "/" + y == [c[0]] + (c[1..] + "/" + y);
      assert a == [a[0]] + a[1..] && c == [c[0]] + c[1..];
      BeforeSlash(a[1..], x, c[1..], y);
      FirstThenRest(a[0], a[1..] + "/" + x, c[0], c[1..] + "/" + y);
    }
  }

  lemma UpToSlash(n: string, c: string, y: string)
    requires '/' !in n
    ensures n <= c + "/" + y <==> n <= c
  {
    if |n| > |c| { assert n[|c|] != '/' && (c + "/" + y)[|c|] == '/'; }
  }

  lemma {:induction false} GluePrefix(up: seq<string>, n: string, cs: seq<string>)
    requires AreParts(up + [n]) && AreParts(cs) && n != ""
    ensures Glue(up + [n]) <= Glue(cs) <==> |cs| > |up| && cs[..|up|] == up && n <= cs[|up|]
    decreases |up|
  {
    assert forall i | 0 <= i < |up| :: (up + [n])[i] == up[i];
    assert (up + [n])[|up|] == n;
    if up == [] {
      assert up + [n] == [n];
      if |cs| > 1 { UpToSlash(n, cs[0], Glue(cs[1..])); }
    } else {
      assert (up + [n])[1..] == up[1..] + [n];
      if |cs| > 1 {
        GluePrefix(up[1..], n, cs[1..]);
        BeforeSlash(up[0], Glue(up[1..] + [n]), cs[0], Glue(cs[1..]));
        TakeHead(up, cs);
      } else if cs != [] {
        SlashInside(up[0], Glue(up[1..] + [n]), cs[0]);
      }
    }
  }

  lemma TakeHead(up: seq<string>, cs: seq<string>)
    requires up != [] && cs != []
    ensures |cs| > |up| ==> (cs[..|up|] == up <==> cs[0] == up[0] && cs[1..][..|up| - 1] == up[1..])
  {
    if |cs| > |up| {
      assert cs[..|up|] == [cs[0]] + cs[1..][..|up| - 1] && up == [up[0]] + up[1..];
    }
  }

  lemma SlashInside(a: string, x: string, c: string)
    requires '/' !in c
    ensures !(a + "/" + x <= c)
  {
    if |c| > |a| { assert c[|a|] != '/' && (a + "/" + x)[|a|] == '/'; }
  }

  // What the test says of cleaned paths.
  lemma CheckComparesBytes(root: Lex, l: Lex)
    requires Normal(root) && Normal(l) && root.abs == l.abs && Show(root) != "."
    ensures HasPrefix(Show(l), Show(root)) <==> BytesBelow(root, l)
  {
    if root.comps != [] {
      var k := |root.comps| - 1;
      assert root.comps == root.comps[..k] + [root.comps[k]];
      GluePrefix(root.comps[..k], root.comps[k], l.comps);
      if l.abs {
        assert Show(l) == ['/'] + Glue(l.comps) && Show(root) == ['/'] + Glue(root.comps);
        FirstThenRest('/', Glue(root.comps), '/', Glue(l.comps));
      } else if l.comps == [] {
        assert Show(root) == Glue(root.comps);
        NotOnlyDot(root);
      }
    }
  }

  lemma NotOnlyDot(root: Lex)
    requires Normal(root) && !root.abs && root.comps != []
    ensures !(Show(root) <= ".")
  {
    ParseShow(root);
    ShowIsAbs(root);
    ParseShow(Lex(false, []));
  }

  lemma EntryIsClean(fs: Fs, cwd: Place, rootfs: string, current: string, e: string)
    requires rootfs != "" && current != "" && Parse(current).abs == Parse(rootfs).abs
    ensures var p := ResolveEntry(fs, cwd, rootfs, current, e).0;
            p != "" && Clean(p) == p && Parse(p).abs == Parse(rootfs).abs
  {
    ResolvedIsPath(fs, cwd, rootfs, current, e);
    var l := PushAll(Parse(current), Split(e));
    ParseShow(l);
    var node := Lstat(fs, cwd, Join(current, e));
    if node.Some? && node.value.Link? {
      var t := node.value.target;
      if IsAbs(t) {
        JoinCleans(rootfs, t);
        ParseShow(PushAll(Parse(rootfs), Split(t)));
      } else {
        JoinCleans(current, t);
        ParseShow(PushAll(Parse(current), Split(t)));
      }
    }
  }

  lemma {:induction false} ResultIsClean(fs: Fs, cwd: Place, rootfs: string, current: string, entries: seq<string>)
    requires rootfs != "" && current != "" && Clean(current) == current && Parse(current).abs == Parse(rootfs).abs
             && AreParts(entries)
    ensures var p := ResolveFrom(fs, cwd, rootfs, current, entries).0;
            Clean(p) == p && Parse(p).abs == Parse(rootfs).abs
    decreases |entries|
  {
    if entries != [] {
      EntryIsClean(fs, cwd, rootfs, current, entries[0]);
      var (p, ok) := ResolveEntry(fs, cwd, rootfs, current, entries[0]);
      if ok {
        ResultIsClean(fs, cwd, rootfs, p, entries[1..]);
      } else {
        RestJoined(Parse(p), entries[1..]);
        ParseShow(PushAll(Parse(p), entries[1..]));
      }
    }
  }

  // The test lets every destination inside the root pass, and of the others exactly those with a
  // component that properly extends the root's last one in its place (and, under a root that is
  // itself only "..", those that go further up).
  lemma EscapesPassExactly(fs: Fs, cwd: Place, rootfs: string, dst: string)
    requires Clean(rootfs) == rootfs && rootfs != "."
    ensures var dest := Destination(fs, cwd, rootfs, dst).0; var root, l := Parse(rootfs), Parse(dest);
            && dest == Show(l) && l.abs == root.abs
            && (HasPrefix(dest, rootfs) <==> Inside(root, l) || Beside(root, l) || Over(root, l))
            && (Beside(root, l) || Over(root, l) ==> !Inside(root, l))
            && (root.abs ==> !Over(root, l))
  {
    assert rootfs != "" by { SplitSingle(""); PushOne(Lex(false, []), ""); assert Clean("") == "."; }
    ResultIsClean(fs, cwd, rootfs, rootfs, Split(TrimSlash(dst)));
    var root, l := Parse(rootfs), Parse(Destination(fs, cwd, rootfs, dst).0);
    CheckComparesBytes(root, l);
    InsideOrNot(root, l);
  }

  lemma InsideOrNot(root: Lex, l: Lex)
    requires Normal(root) && Normal(l) && root.abs == l.abs
    ensures BytesBelow(root, l) <==> Inside(root, l) || Beside(root, l) || Over(root, l)
    ensures Beside(root, l) || Over(root, l) ==> !Inside(root, l)
    ensures root.abs ==> !Over(root, l)
  {
    var n := |root.comps|;
    if root.comps <= l.comps {
      if n > 0 { assert l.comps[..n - 1] == root.comps[..n - 1] && l.comps[n - 1] == root.comps[n - 1]; }
      if n < |l.comps| && l.comps[n] != ".." {
        NamesFrom(l, n);
      } else if n < |l.comps| {
        assert l.comps[n..][0] == "..";
      }
    } else if BytesBelow(root, l) {
      BesideOrBelow(root, l);
    }
  }

  lemma NamesFrom(l: Lex, n: nat)
    requires Normal(l) && n < |l.comps| && l.comps[n] != ".."
    ensures AllNames(l.comps[n..])
  {
    forall i | 0 <= i < |l.comps| - n ensures IsName(l.comps[n..][i]) { assert l.comps[n..][i] == l.comps[n + i]; }
  }

  lemma BesideOrBelow(root: Lex, l: Lex)
    requires root.comps != [] && BytesBelow(root, l)
    ensures root.comps <= l.comps || Beside(root, l)
  {
    var n := |root.comps|;
    if |root.comps[n - 1]| == |l.comps[n - 1]| {
      assert root.comps[n - 1] == l.comps[n - 1];
      assert root.comps == root.comps[..n - 1] + [root.comps[n - 1]];
      assert l.comps[..n] == l.comps[..n - 1] + [l.comps[n - 1]];
    }
  }

  // ---------------------------------------------------------------- a missing entry

  lemma ResolvedIsPath(fs: Fs, cwd: Place, rootfs: string, current: string, e: string)
    requires current != "" && rootfs != ""
    ensures ResolveEntry(fs, cwd, rootfs, current, e).0 != ""
    ensures Join(current, e) == Show(PushAll(Parse(current), Split(e)))
    ensures !ResolveEntry(fs, cwd, rootfs, current, e).1 ==>
              ResolveEntry(fs, cwd, rootfs, current, e).0 == Join(current, e)
  {
    JoinCleans(current, e);
    var p := Join(current, e);
    ShowIsAbs(PushAll(Parse(current), Split(e)));
    var node := Lstat(fs, cwd, p);
    if node.Some? && node.value.Link? {
      var t := node.value.target;
      if IsAbs(t) {
        JoinCleans(rootfs, t);
        ShowIsAbs(PushAll(Parse(rootfs), Split(t)));
      } else {
        ShowIsAbs(Parse(Join(current, t)));
      }
    }
  }

  lemma JoinedFrom(current: string, e: string, rest: seq<string>)
    requires current != "" && '/' !in e && AreParts(rest)
    ensures AreParts([e] + rest) && Join(Join(current, e), JoinAll(rest)) == Show(PushAll(Parse(current), [e] + rest))
  {
    JoinCleans(current, e);
    SplitSingle(e);
    RestJoined(PushAll(Parse(current), [e]), rest);
    PushAllConcat(Parse(current), [e], rest);
  }

  lemma ResolvesFirst(fs: Fs, cwd: Place, rootfs: string, current: string, entries: seq<string>, k: nat)
    requires k < |entries| && ResolveEntry(fs, cwd, rootfs, current, entries[0]).1
    ensures ResolveFrom(fs, cwd, rootfs, current, entries[..k + 1]) ==
            ResolveFrom(fs, cwd, rootfs, ResolveEntry(fs, cwd, rootfs, current, entries[0]).0, entries[1..][..k])
    ensures entries[k + 1..] == entries[1..][k..]
  {
    assert entries[..k + 1][1..] == entries[1..][..k] && entries[..k + 1][0] == entries[0];
  }

  // When the resolution fails, the entries before some entry k were resolved, k could not be looked
  // up, and the result is the path of k with all remaining entries joined to it.
  lemma {:induction false} MissJoinsTheRest(fs: Fs, cwd: Place, rootfs: string, current: string, entries: seq<string>)
    returns (k: nat, p: string)
    requires rootfs != "" && current != "" && AreParts(entries) && !ResolveFrom(fs, cwd, rootfs, current, entries).1
    ensures k < |entries| && p != "" && ResolveFrom(fs, cwd, rootfs, current, entries[..k]) == (p, true)
    ensures Lstat(fs, cwd, Join(p, entries[k])).None?
    ensures ResolveFrom(fs, cwd, rootfs, current, entries).0 == Show(PushAll(Parse(p), entries[k..]))
    decreases |entries|
  {
    var e, rest := entries[0], entries[1..];
    ResolvedIsPath(fs, cwd, rootfs, current, e);
    var (q, ok) := ResolveEntry(fs, cwd, rootfs, current, e);
    if ok {
      k, p := MissJoinsTheRest(fs, cwd, rootfs, q, rest);
      ResolvesFirst(fs, cwd, rootfs, current, entries, k);
      k := k + 1;
    } else {
      k, p := 0, current;
      assert entries[0..] == [e] + rest && entries[..0] == [];
      JoinedFrom(current, e, rest);
    }
  }

  // ---------------------------------------------------------------- where one level is not enough

  lemma OneEntry(fs: Fs, cwd: Place, rootfs: string, current: string, e: string)
    ensures var (p, ok) := ResolveEntry(fs, cwd, rootfs, current, e);
            ResolveFrom(fs, cwd, rootfs, current, [e]) == if ok then (p, true) else (Join(p, ""), false)
  {
    assert [e][1..] == [];
    var p := ResolveEntry(fs, cwd, rootfs, current, e).0;
    assert ResolveFrom(fs, cwd, rootfs, p, []) == (p, true) && JoinAll([]) == "";
  }

  lemma FirstOfTwo(fs: Fs, cwd: Place, rootfs: string, current: string, d: string, e: string)
    requires ResolveEntry(fs, cwd, rootfs, current, d).1
    ensures ResolveFrom(fs, cwd, rootfs, current, [d, e]) ==
              ResolveFrom(fs, cwd, rootfs, ResolveEntry(fs, cwd, rootfs, current, d).0, [e])
  {
    assert [d, e][1..] == [e];
  }

  // A link to a link is left half resolved: the destination is itself a link.
  lemma LinkToLinkStays(fs: Fs, cwd: Place, rootfs: string, base: Place, current: string, at: Place, e: string,
        n: string)
    requires Standing(fs, cwd, rootfs, base, current, at) && IsName(e) && IsName(n)
    requires IsLink(fs, base + (at + [e])) && fs[base + (at + [e])].target == n && IsLink(fs, base + (at + [n]))
    ensures ResolveFrom(fs, cwd, rootfs, current, [e]) == (Show(Below(rootfs, at + [n])), true)
    ensures !Clear(fs, base, at + [n])
  {
    SeesName(fs, cwd, rootfs, base, current, at, n);
    SeesName(fs, cwd, rootfs, base, current, at, e);
    ParseShow(Below(rootfs, at + [n]));
    assert !IsAbs(n);
    OneEntry(fs, cwd, rootfs, current, e);
  }

  // A link whose absolute target starts with the root path is not resolved at all.
  lemma RootedTargetStays(fs: Fs, cwd: Place, rootfs: string, base: Place, current: string, at: Place, e: string)
    requires Standing(fs, cwd, rootfs, base, current, at) && IsName(e) && IsLink(fs, base + (at + [e]))
    requires var t := fs[base + (at + [e])].target; IsAbs(t) && HasPrefix(t, rootfs)
    ensures ResolveFrom(fs, cwd, rootfs, current, [e]) == (Show(Below(rootfs, at + [e])), true)
    ensures !Clear(fs, base, at + [e])
  {
    SeesName(fs, cwd, rootfs, base, current, at, e);
    OneEntry(fs, cwd, rootfs, current, e);
  }

  // Up again and down another name.
  lemma UpAndOver(l: Lex, m: string, e: string)
    requires Normal(l) && IsName(m) && IsName(e)
    ensures PushAll(l, [m] + ["..", e]) == Lex(l.abs, l.comps + [e])
  {
    var inner := Lex(l.abs, l.comps + [m]);
    assert ["..", e] == [".."] + [e];
    PushAllConcat(l, [m], [".."] + [e]);
    PushAllConcat(inner, [".."], [e]);
    PushOne(l, m);
    PushOne(inner, "..");
    assert inner.comps[..|l.comps|] == l.comps;
    PushOne(l, e);
  }

  lemma MissEnds(fs: Fs, cwd: Place, rootfs: string, current: string, e: string, rest: seq<string>)
    requires Lstat(fs, cwd, Join(current, e)).None? && current != "" && '/' !in e && AreParts(rest)
    ensures AreParts([e] + rest)
    ensures ResolveFrom(fs, cwd, rootfs, current, [e] + rest) == (Show(PushAll(Parse(current), [e] + rest)), false)
  {
    assert ([e] + rest)[1..] == rest;
    JoinedFrom(current, e, rest);
  }

  // ".." after a missing entry is taken lexically and may lead to a link that nobody resolves.
  lemma DotDotAfterMissing(fs: Fs, cwd: Place, rootfs: string, base: Place, current: string, at: Place, m: string,
        e: string)
    requires Standing(fs, cwd, rootfs, base, current, at) && IsName(m) && IsName(e)
    requires base + (at + [m]) !in fs && IsLink(fs, base + (at + [e]))
    ensures ResolveFrom(fs, cwd, rootfs, current, [m] + ["..", e]) == (Show(Below(rootfs, at + [e])), false)
    ensures !Clear(fs, base, at + [e])
  {
    MissBelow(fs, cwd, rootfs, base, current, at, m, ["..", e]);
    OverBelow(rootfs, at, m, e);
    assert (at + [e])[..|at + [e]|] == at + [e];
  }

  lemma MissBelow(fs: Fs, cwd: Place, rootfs: string, base: Place, current: string, at: Place, m: string,
        rest: seq<string>)
    requires Standing(fs, cwd, rootfs, base, current, at) && IsName(m) && base + (at + [m]) !in fs && AreParts(rest)
    ensures AreParts([m] + rest)
    ensures ResolveFrom(fs, cwd, rootfs, current, [m] + rest) == (Show(PushAll(Below(rootfs, at), [m] + rest)), false)
  {
    SeesName(fs, cwd, rootfs, base, current, at, m);
    MissEnds(fs, cwd, rootfs, current, m, rest);
  }

  lemma OverBelow(rootfs: string, at: Place, m: string, e: string)
    requires Normal(Below(rootfs, at)) && IsName(m) && IsName(e)
    ensures PushAll(Below(rootfs, at), [m] + ["..", e]) == Below(rootfs, at + [e])
  {
    UpAndOver(Below(rootfs, at), m, e);
    assert Parse(rootfs).comps + at + [e] == Parse(rootfs).comps + (at + [e]);
  }

  // Joining one name, or "..", to a cleaned absolute path.
  lemma JoinName(l: Lex, e: string)
    requires Normal(l) && IsName(e)
    ensures Join(Show(l), e) == Show(Lex(l.abs, l.comps + [e]))
    ensures Join(Show(Lex(l.abs, l.comps + [e])), "..") == Show(l)
  {
    JoinPushes(l, e);
    SplitSingle(e);
    PushOne(l, e);
    var inner := Lex(l.abs, l.comps + [e]);
    JoinPushes(inner, "..");
    SplitSingle("..");
    PushOne(inner, "..");
    assert inner.comps[..|l.comps|] == l.comps;
  }

  predicate NoLinkAt(fs: Fs, cwd: Place, path: string) {
    var node := Lstat(fs, cwd, path);
    node.Some? ==> !node.value.Link?
  }

  // A ".." that climbs above the root: the test for escapes compares bytes, so a sibling whose name
  // starts with the root's name passes it although it is not below the root.
  lemma SiblingPassesTheCheck(fs: Fs, cwd: Place, up: Place, n: string, more: string)
    requires AllNames(up) && IsName(n) && IsName(n + more) && more != ""
    requires Lstat(fs, cwd, Show(Lex(true, up))).Some? && NoLinkAt(fs, cwd, Show(Lex(true, up)))
    requires NoLinkAt(fs, cwd, Show(Lex(true, up + [n + more])))
    ensures var rootfs := Show(Lex(true, up + [n])); var r := ResolveFrom(fs, cwd, rootfs, rootfs, ["..", n + more]).0;
            HasPrefix(r, rootfs) && forall at | AllNames(at) :: r != Show(Below(rootfs, at))
  {
    var l, sibling := Lex(true, up), Lex(true, up + [n + more]);
    var rootfs, r := Show(Lex(true, up + [n])), Show(sibling);
    JoinName(l, n);
    JoinName(l, n + more);
    CheckComparesBytes(Lex(true, up + [n]), sibling);
    assert (up + [n])[..|up|] == up == (up + [n + more])[..|up|];
    assert HasPrefix(r, rootfs);
    FirstOfTwo(fs, cwd, rootfs, rootfs, "..", n + more);
    OneEntry(fs, cwd, rootfs, Show(l), n + more);
    SplitSingle("");
    JoinPushes(sibling, "");
    PushOne(sibling, "");
    assert ResolveFrom(fs, cwd, rootfs, rootfs, ["..", n + more]).0 == r;
    forall at | AllNames(at) ensures r != Show(Below(rootfs, at)) { SiblingIsNotBelow(up, n, more, at); }
  }

  lemma SiblingIsNotBelow(up: Place, n: string, more: string, at: Place)
    requires AllNames(up) && IsName(n) && IsName(n + more) && more != "" && AllNames(at)
    ensures Show(Lex(true, up + [n + more])) != Show(Below(Show(Lex(true, up + [n])), at))
  {
    ParseShow(Lex(true, up + [n]));
    var l, r := Lex(true, up + [n + more]), Lex(true, up + [n] + at);
    assert l.comps[|up|] == n + more && r.comps[|up|] == n && |n + more| > |n|;
    if Show(l) == Show(r) { ShowIsInjective(l, r); }
  }
}
