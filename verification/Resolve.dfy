/**
  Mount destinations: one level of symbolic links resolved by hand below the container's root,
  against a chroot-style resolution that follows every link inside the root.
 */
module Resolve {
  import opened Options
  import opened Paths
  import opened HostFs
  import opened Mkdir

  // ---------------------------------------------------------------- what the resolver computes

  // resolvePathRelative: the path, and whether it could be looked up.
  function ResolveEntry(fs: Fs, cwd: Place, rootfs: string, current: string, sub: string): (string, bool) {
    var p := Join(current, sub);
    match Lstat(fs, cwd, p)
    case None => (p, false)
    case Some(Link(target)) =>
      if !IsAbs(target) then (Clean(Join(current, target)), true)
      else if HasPrefix(target, rootfs) then (p, true)
      else (Join(rootfs, target), true)
    case Some(_) => (p, true)
  }

  // The first entry that cannot be looked up ends the resolution; the others are joined to it.
  function ResolveFrom(fs: Fs, cwd: Place, rootfs: string, current: string, entries: seq<string>): (string, bool)
    decreases |entries|
  {
    if entries == [] then (current, true) else
    var (p, ok) := ResolveEntry(fs, cwd, rootfs, current, entries[0]);
    if ok then ResolveFrom(fs, cwd, rootfs, p, entries[1..]) else (Join(p, JoinAll(entries[1..])), false)
  }

  function TrimSlash(dst: string): string {
    if IsAbs(dst) then dst[1..] else dst
  }

  function Destination(fs: Fs, cwd: Place, rootfs: string, dst: string): (string, bool) {
    ResolveFrom(fs, cwd, rootfs, rootfs, Split(TrimSlash(dst)))
  }

  // ---------------------------------------------------------------- the reference

  // Resolution as if `base` were the root: every link is followed, ".." stays inside, and what does
  // not exist is taken as it is. `at` is relative to base, and so is the result.
  function Chroot(fs: Fs, base: Place, at: Place, parts: seq<string>, budget: nat): Option<Place>
    decreases budget, |parts|
  {
    if parts == [] then Some(at)
    else if parts[0] == "" || parts[0] == "." then Chroot(fs, base, at, parts[1..], budget)
    else if parts[0] == ".." then Chroot(fs, base, Above(at), parts[1..], budget)
    else
      var next := at + [parts[0]];
      if IsLink(fs, base + next) then
        if budget == 0 then None else
        var target := fs[base + next].target;
        Chroot(fs, base, if IsAbs(target) then [] else at, Split(target) + parts[1..], budget - 1)
      else Chroot(fs, base, next, parts[1..], budget)
  }

  // The parts lead from `at` along no link and never above base.
  predicate Plain(fs: Fs, base: Place, at: Place, parts: seq<string>)
    decreases |parts|
  {
    if parts == [] then true
    else if parts[0] == "" || parts[0] == "." then Plain(fs, base, at, parts[1..])
    else if parts[0] == ".." then at != [] && Plain(fs, base, Above(at), parts[1..])
    else !IsLink(fs, base + (at + [parts[0]])) && Plain(fs, base, at + [parts[0]], parts[1..])
  }

  function Lexical(at: Place, parts: seq<string>): Place
    decreases |parts|
  {
    if parts == [] then at
    else if parts[0] == "" || parts[0] == "." then Lexical(at, parts[1..])
    else if parts[0] == ".." then Lexical(Above(at), parts[1..])
    else Lexical(at + [parts[0]], parts[1..])
  }

  // No place on the way from base to at is a link.
  predicate Clear(fs: Fs, base: Place, at: Place) {
    forall k | 0 < k <= |at| :: !IsLink(fs, base + at[..k])
  }

  predicate MeetsLink(fs: Fs, base: Place, at: Place, e: string) {
    IsName(e) && IsLink(fs, base + (at + [e]))
  }

  function Origin(at: Place, target: string): Place {
    if IsAbs(target) then [] else at
  }

  // Where one entry leads when the target of a link is taken as it is.
  function Onto(fs: Fs, base: Place, at: Place, e: string): Place {
    if MeetsLink(fs, base, at, e) then var t := fs[base + (at + [e])].target; Lexical(Origin(at, t), Split(t))
    else Lexical(at, [e])
  }

  // No ".." climbs above the root, the target of a link that is met leads along no further link, and
  // no absolute target starts with the root path.
  predicate TameEntry(fs: Fs, base: Place, rootfs: string, at: Place, e: string) {
    && (e == ".." ==> at != [])
    && (MeetsLink(fs, base, at, e) ==>
          var t := fs[base + (at + [e])].target;
          !(IsAbs(t) && HasPrefix(t, rootfs)) && Plain(fs, base, Origin(at, t), Split(t)))
  }

  predicate Goes(fs: Fs, base: Place, at: Place, e: string) {
    MeetsLink(fs, base, at, e) || base + Onto(fs, base, at, e) in fs
  }

  // The inputs on which one level of links is enough: every entry up to the first missing one is
  // tame, and from there on nothing leads to a link or above the root.
  predicate Tame(fs: Fs, base: Place, rootfs: string, at: Place, entries: seq<string>)
    decreases |entries|
  {
    entries == [] ||
    (TameEntry(fs, base, rootfs, at, entries[0]) &&
     var next := Onto(fs, base, at, entries[0]);
     if Goes(fs, base, at, entries[0]) then Tame(fs, base, rootfs, next, entries[1..])
     else Plain(fs, base, next, entries[1..]))
  }

  // ---------------------------------------------------------------- plain parts

  predicate AllNames(at: Place) {
    forall i | 0 <= i < |at| :: IsName(at[i])
  }

  lemma {:induction false} PlainStaysClear(fs: Fs, base: Place, at: Place, parts: seq<string>)
    requires Clear(fs, base, at) && AllNames(at) && Plain(fs, base, at, parts) && AreParts(parts)
    ensures Clear(fs, base, Lexical(at, parts)) && AllNames(Lexical(at, parts))
    decreases |parts|
  {
    if parts != [] {
      if parts[0] == "" || parts[0] == "." {
        PlainStaysClear(fs, base, at, parts[1..]);
      } else if parts[0] == ".." {
        assert forall k | 0 < k <= |Above(at)| :: Above(at)[..k] == at[..k];
        PlainStaysClear(fs, base, Above(at), parts[1..]);
      } else {
        var next := at + [parts[0]];
        assert forall k | 0 < k <= |at| :: next[..k] == at[..k];
        assert next[..|next|] == next;
        PlainStaysClear(fs, base, next, parts[1..]);
      }
    }
  }

  // Along plain parts the reference goes where they lead lexically.
  lemma {:induction false} ChrootPlain(fs: Fs, base: Place, at: Place, parts: seq<string>, rest: seq<string>,
        budget: nat)
    requires Plain(fs, base, at, parts)
    ensures Chroot(fs, base, at, parts + rest, budget) == Chroot(fs, base, Lexical(at, parts), rest, budget)
    decreases |parts|
  {
    if parts == [] {
      assert parts + rest == rest;
    } else {
      assert (parts + rest)[1..] == parts[1..] + rest;
      var next := if parts[0] == "" || parts[0] == "." then at else if parts[0] == ".." then Above(at)
          else at + [parts[0]];
      ChrootPlain(fs, base, next, parts[1..], rest, budget);
    }
  }

  lemma LexicalOne(at: Place, e: string)
    ensures Lexical(at, [e]) == if e == "" || e == "." then at else if e == ".." then Above(at) else at + [e]
  {
    assert [e][1..] == [];
  }

  lemma PushName(l: Lex, at: Place, e: string)
    requires Normal(Lex(l.abs, l.comps + at)) && AllNames(at) && '/' !in e && (e == ".." ==> at != [])
    ensures AllNames(Lexical(at, [e])) && Normal(Lex(l.abs, l.comps + Lexical(at, [e])))
    ensures Push(Lex(l.abs, l.comps + at), e) == Lex(l.abs, l.comps + Lexical(at, [e]))
  {
    var all := l.comps + at;
    LexicalOne(at, e);
    assert Push(Lex(l.abs, all), e).comps == l.comps + Lexical(at, [e]) by {
      if e == ".." {
        assert all[|all| - 1] == at[|at| - 1];
      }
    }
  }

  // Pushing plain parts onto a path below the root goes where they lead lexically.
  lemma {:induction false} PushPlain(fs: Fs, base: Place, l: Lex, at: Place, parts: seq<string>)
    requires Normal(Lex(l.abs, l.comps + at)) && AllNames(at) && AreParts(parts) && Plain(fs, base, at, parts)
    ensures AllNames(Lexical(at, parts)) && Normal(Lex(l.abs, l.comps + Lexical(at, parts)))
    ensures PushAll(Lex(l.abs, l.comps + at), parts) == Lex(l.abs, l.comps + Lexical(at, parts))
    decreases |parts|
  {
    if parts != [] {
      PushName(l, at, parts[0]);
      assert [parts[0]][1..] == [];
      PushPlain(fs, base, l, Lexical(at, [parts[0]]), parts[1..]);
    }
  }

  // ---------------------------------------------------------------- joining the rest

  // Pushing the cleaned form of a relative path is pushing its parts.
  lemma {:induction false} PushCleaned(l: Lex, parts: seq<string>)
    requires Normal(l) && AreParts(parts)
    ensures AreParts(PushAll(Lex(false, []), parts).comps)
    ensures PushAll(l, PushAll(Lex(false, []), parts).comps) == PushAll(l, parts)
    decreases |parts|
  {
    if parts != [] {
      var init, last := parts[..|parts| - 1], parts[|parts| - 1];
      assert parts == init + [last];
      PushCleaned(l, init);
      PushAllConcat(Lex(false, []), init, [last]);
      PushAllConcat(l, init, [last]);
      PushOne(PushAll(Lex(false, []), init), last);
      PushOne(PushAll(l, init), last);
      PushLast(l, PushAll(Lex(false, []), init), last);
    }
  }

  lemma PushOne(l: Lex, e: string)
    requires Normal(l) && '/' !in e
    ensures PushAll(l, [e]) == Push(l, e)
  {
    assert [e][1..] == [];
  }

  lemma PushLast(l: Lex, n: Lex, last: string)
    requires Normal(l) && Normal(n) && !n.abs && '/' !in last && AreParts(n.comps)
    ensures AreParts(Push(n, last).comps)
    ensures PushAll(l, Push(n, last).comps) == Push(PushAll(l, n.comps), last)
  {
    if Push(n, last).comps == n.comps + [last] {
      PushAllConcat(l, n.comps, [last]);
      PushOne(PushAll(l, n.comps), last);
    } else if last == ".." {
      var init, top := n.comps[..|n.comps| - 1], n.comps[|n.comps| - 1];
      assert n.comps == init + [top];
      PushAllConcat(l, init, [top]);
      PushOne(PushAll(l, init), top);
      assert (PushAll(l, init).comps + [top])[..|PushAll(l, init).comps|] == PushAll(l, init).comps;
    }
  }

  lemma {:induction false} RestJoined(l: Lex, parts: seq<string>)
    requires Normal(l) && AreParts(parts)
    ensures Join(Show(l), JoinAll(parts)) == Show(PushAll(l, parts))
    decreases |parts|
  {
    JoinPushes(l, JoinAll(parts));
    if parts == [] {
      SplitSingle("");
      PushOne(l, "");
    } else if parts[0] == "" {
      RestJoined(l, parts[1..]);
    } else {
      SplitGlue(parts);
      var n := PushAll(Lex(false, []), parts);
      assert !IsAbs(Glue(parts));
      assert JoinAll(parts) == Show(n);
      SplitShow(n);
      PushCleaned(l, parts);
      PushOne(l, ".");
    }
  }

  // ---------------------------------------------------------------- what lstat sees below the root

  lemma WalkShow(fs: Fs, cwd: Place, l: Lex, follow: bool)
    requires Normal(l) && IsFolder(fs, []) && IsFolder(fs, cwd)
    ensures LookUp(fs, cwd, Show(l), follow) == Walk(fs, if l.abs then [] else cwd, l.comps, follow, MAX_LINKS)
  {
    ShowIsAbs(l);
    SplitShow(l);
    var at := if l.abs then [] else cwd;
    if l.abs {
      assert ([""] + l.comps)[1..] == l.comps;
      assert ["", ""][1..] == [""] && [""][1..] == [];
      assert l.comps == [] ==> Walk(fs, at, [""], follow, MAX_LINKS) == Walk(fs, at, [], follow, MAX_LINKS);
    } else {
      assert ["."][1..] == [];
    }
  }

  // Down names that are no links the walk finds exactly what is in the tree.
  lemma {:induction false} WalkNames(fs: Fs, base: Place, at: Place, follow: bool, budget: nat)
    requires WellFormed(fs) && IsFolder(fs, base) && AllNames(at)
    requires forall k | 0 < k < |at| :: !IsLink(fs, base + at[..k])
    requires follow ==> !IsLink(fs, base + at)
    ensures var r := Walk(fs, base, at, follow, budget);
            if base + at in fs then r == Found(base + at, budget) else !r.Found?
    decreases |at|
  {
    if at == [] {
      assert base + at == base;
    } else {
      var init, last := at[..|at| - 1], at[|at| - 1];
      assert at == init + [last];
      assert forall k | 0 < k < |init| :: init[..k] == at[..k];
      assert init == at[..|init|];
      assert init == [] ==> base + init == base;
      WalkNames(fs, base, init, true, budget);
      WalkOn(fs, base, init, [last], follow, budget);
      assert base + at == (base + init) + [last];
      assert (base + at)[..|base + at| - 1] == base + init;
      assert base + at in fs ==> Rooted(fs, base + at);
      if IsFolder(fs, base + init) { OneName(fs, base + init, last, follow, budget); }
    }
  }

  // The cleaned root path leads to the directory base, and is itself no link.
  predicate RootAt(fs: Fs, cwd: Place, rootfs: string, base: Place) {
    && rootfs != "" && IsFolder(fs, base)
    && var r := LookUp(fs, cwd, Clean(rootfs), false); r.Found? && r.at == base
  }

  function Below(rootfs: string, at: Place): Lex {
    Lex(Parse(rootfs).abs, Parse(rootfs).comps + at)
  }

  lemma LstatBelow(fs: Fs, cwd: Place, rootfs: string, base: Place, at: Place)
    requires WellFormed(fs) && IsFolder(fs, cwd) && RootAt(fs, cwd, rootfs, base)
    requires AllNames(at) && Normal(Below(rootfs, at))
    requires forall k | 0 < k < |at| :: !IsLink(fs, base + at[..k])
    ensures Lstat(fs, cwd, Show(Below(rootfs, at))) == if base + at in fs then Some(fs[base + at]) else None
  {
    var l := Parse(rootfs);
    var start := if l.abs then [] else cwd;
    WalkShow(fs, cwd, l, false);
    WalkShow(fs, cwd, Below(rootfs, at), false);
    if at == [] {
      assert l.comps + at == l.comps && base + at == base;
    } else {
      FollowAgrees(fs, start, l.comps, MAX_LINKS);
      WalkOn(fs, start, l.comps, at, false, MAX_LINKS);
      WalkNames(fs, base, at, false, Walk(fs, start, l.comps, true, MAX_LINKS).left);
    }
  }

  // ---------------------------------------------------------------- one entry

  // The resolver stands at a place below the root that no link leads to.
  ghost predicate Standing(fs: Fs, cwd: Place, rootfs: string, base: Place, current: string, at: Place) {
    && WellFormed(fs) && IsFolder(fs, cwd) && RootAt(fs, cwd, rootfs, base)
    && AllNames(at) && Normal(Below(rootfs, at)) && Clear(fs, base, at)
    && current != "" && Parse(current) == Below(rootfs, at)
  }

  lemma JoinEntry(fs: Fs, cwd: Place, rootfs: string, base: Place, current: string, at: Place, e: string)
    requires Standing(fs, cwd, rootfs, base, current, at) && '/' !in e && (e == ".." ==> at != [])
    ensures var next := Lexical(at, [e]);
            AllNames(next) && Normal(Below(rootfs, next)) && Join(current, e) == Show(Below(rootfs, next))
  {
    JoinCleans(current, e);
    SplitSingle(e);
    PushOne(Parse(current), e);
    PushName(Parse(rootfs), at, e);
  }

  // All but the last component of the joined path is clear of links.
  lemma EntryClear(fs: Fs, base: Place, at: Place, e: string)
    requires Clear(fs, base, at) && '/' !in e && (e == ".." ==> at != [])
    ensures var next := Lexical(at, [e]);
            && (forall k | 0 < k < |next| :: !IsLink(fs, base + next[..k]))
            && (IsLink(fs, base + next) && next != [] ==> MeetsLink(fs, base, at, e))
  {
    LexicalOne(at, e);
    var next := Lexical(at, [e]);
    assert at[..|at|] == at && next[..|next|] == next;
    assert forall k | 0 < k <= |at| && k <= |next| :: next[..k] == at[..k];
  }

  lemma TargetShown(fs: Fs, cwd: Place, rootfs: string, base: Place, current: string, at: Place, t: string)
    requires Standing(fs, cwd, rootfs, base, current, at) && Plain(fs, base, Origin(at, t), Split(t))
    ensures (if IsAbs(t) then Join(rootfs, t) else Clean(Join(current, t))) ==
              Show(Below(rootfs, Lexical(Origin(at, t), Split(t))))
  {
    var l := Parse(rootfs);
    assert l.comps + [] == l.comps;
    PushPlain(fs, base, l, Origin(at, t), Split(t));
    if IsAbs(t) {
      JoinCleans(rootfs, t);
    } else {
      JoinCleans(current, t);
      ParseShow(Below(rootfs, Lexical(at, Split(t))));
    }
  }

  // A link met is resolved to where its target leads lexically below the root.
  lemma LinkEntry(fs: Fs, cwd: Place, rootfs: string, base: Place, current: string, at: Place, e: string)
    requires Standing(fs, cwd, rootfs, base, current, at) && '/' !in e
    requires TameEntry(fs, base, rootfs, at, e) && MeetsLink(fs, base, at, e)
    ensures ResolveEntry(fs, cwd, rootfs, current, e) == (Show(Below(rootfs, Onto(fs, base, at, e))), true)
  {
    JoinEntry(fs, cwd, rootfs, base, current, at, e);
    EntryClear(fs, base, at, e);
    LexicalOne(at, e);
    LstatBelow(fs, cwd, rootfs, base, at + [e]);
    TargetShown(fs, cwd, rootfs, base, current, at, fs[base + (at + [e])].target);
  }

  lemma PlainEntry(fs: Fs, cwd: Place, rootfs: string, base: Place, current: string, at: Place, e: string)
    requires Standing(fs, cwd, rootfs, base, current, at) && '/' !in e
    requires TameEntry(fs, base, rootfs, at, e) && !MeetsLink(fs, base, at, e)
    ensures ResolveEntry(fs, cwd, rootfs, current, e) ==
            (Show(Below(rootfs, Onto(fs, base, at, e))), base + Onto(fs, base, at, e) in fs)
  {
    JoinEntry(fs, cwd, rootfs, base, current, at, e);
    EntryClear(fs, base, at, e);
    var next := Lexical(at, [e]);
    LstatBelow(fs, cwd, rootfs, base, next);
    assert next == [] ==> base + next == base;
  }

  lemma EntryStays(fs: Fs, cwd: Place, rootfs: string, base: Place, current: string, at: Place, e: string)
    requires Standing(fs, cwd, rootfs, base, current, at) && '/' !in e && TameEntry(fs, base, rootfs, at, e)
    ensures var next := Onto(fs, base, at, e);
            Standing(fs, cwd, rootfs, base, Show(Below(rootfs, next)), next)
  {
    var next := Onto(fs, base, at, e);
    var l := Parse(rootfs);
    if MeetsLink(fs, base, at, e) {
      var t := fs[base + (at + [e])].target;
      assert l.comps + [] == l.comps;
      PushPlain(fs, base, l, Origin(at, t), Split(t));
      PlainStaysClear(fs, base, Origin(at, t), Split(t));
    } else {
      PushName(l, at, e);
      assert [e][1..] == [];
      assert Plain(fs, base, at, [e]);
      PlainStaysClear(fs, base, at, [e]);
    }
    ShowIsAbs(Below(rootfs, next));
    ParseShow(Below(rootfs, next));
  }

  // The reference makes the same step, with at most one link.
  lemma ChrootEntry(fs: Fs, base: Place, rootfs: string, at: Place, e: string, rest: seq<string>, budget: nat)
    requires TameEntry(fs, base, rootfs, at, e) && '/' !in e && budget > 0
    ensures Chroot(fs, base, at, [e] + rest, budget) ==
            Chroot(fs, base, Onto(fs, base, at, e), rest, if MeetsLink(fs, base, at, e) then budget - 1 else budget)
  {
    assert ([e] + rest)[0] == e && ([e] + rest)[1..] == rest;
    LexicalOne(at, e);
    if MeetsLink(fs, base, at, e) {
      var t := fs[base + (at + [e])].target;
      ChrootPlain(fs, base, Origin(at, t), Split(t), rest, budget - 1);
    }
  }

  // ---------------------------------------------------------------- the whole destination

  // After a missing entry the rest is joined lexically, as the reference goes.
  lemma RestLeads(fs: Fs, base: Place, rootfs: string, at: Place, rest: seq<string>, budget: nat)
    requires AllNames(at) && Normal(Below(rootfs, at)) && Clear(fs, base, at) && AreParts(rest)
             && Plain(fs, base, at, rest)
    ensures var end := Lexical(at, rest);
            && Chroot(fs, base, at, rest, budget) == Some(end)
            && Clear(fs, base, end) && AllNames(end) && Normal(Below(rootfs, end))
            && Join(Show(Below(rootfs, at)), JoinAll(rest)) == Show(Below(rootfs, end))
  {
    RestJoined(Below(rootfs, at), rest);
    PushPlain(fs, base, Parse(rootfs), at, rest);
    PlainStaysClear(fs, base, at, rest);
    ChrootPlain(fs, base, at, rest, [], budget);
    assert rest + [] == rest;
  }

  lemma {:induction false} ResolvesOn(fs: Fs, cwd: Place, rootfs: string, base: Place, current: string, at: Place,
        entries: seq<string>, budget: nat)
    requires Standing(fs, cwd, rootfs, base, current, at) && AreParts(entries) && budget >= |entries|
    requires Tame(fs, base, rootfs, at, entries) && (entries == [] ==> current == Show(Below(rootfs, at)))
    ensures var r := Chroot(fs, base, at, entries, budget);
            && r.Some? && Clear(fs, base, r.value) && AllNames(r.value) && Normal(Below(rootfs, r.value))
            && ResolveFrom(fs, cwd, rootfs, current, entries).0 == Show(Below(rootfs, r.value))
    decreases |entries|
  {
    if entries != [] {
      var e, rest := entries[0], entries[1..];
      assert entries == [e] + rest;
      var next := Onto(fs, base, at, e);
      if MeetsLink(fs, base, at, e) { LinkEntry(fs, cwd, rootfs, base, current, at, e); }
      else { PlainEntry(fs, cwd, rootfs, base, current, at, e); }
      EntryStays(fs, cwd, rootfs, base, current, at, e);
      ChrootEntry(fs, base, rootfs, at, e, rest, budget);
      var left := if MeetsLink(fs, base, at, e) then budget - 1 else budget;
      if Goes(fs, base, at, e) {
        ResolvesOn(fs, cwd, rootfs, base, Show(Below(rootfs, next)), next, rest, left);
      } else {
        RestLeads(fs, base, rootfs, next, rest, left);
      }
    }
  }

  lemma SplitTrimmed(dst: string)
    ensures Split(dst) == (if IsAbs(dst) then [""] else []) + Split(TrimSlash(dst))
  {
    if IsAbs(dst) {
      assert dst == "" + "/" + dst[1..];
      SplitConcat("", dst[1..]);
      SplitSingle("");
    }
  }

  // On tame inputs the resolved destination is the root path followed by the chroot-style resolution
  // of the destination, with no link on the way.
  lemma ResolvesLikeChroot(fs: Fs, cwd: Place, rootfs: string, base: Place, dst: string, budget: nat)
    requires WellFormed(fs) && IsFolder(fs, cwd) && RootAt(fs, cwd, rootfs, base)
    requires Tame(fs, base, rootfs, [], Split(TrimSlash(dst))) && budget >= |Split(dst)|
    ensures var r := Chroot(fs, base, [], Split(dst), budget);
            && r.Some? && Clear(fs, base, r.value) && AllNames(r.value) && Normal(Below(rootfs, r.value))
            && Destination(fs, cwd, rootfs, dst).0 == Show(Below(rootfs, r.value))
  {
    SplitTrimmed(dst);
    assert Parse(rootfs).comps + [] == Parse(rootfs).comps;
    var entries := Split(TrimSlash(dst));
    assert [] + entries == entries;
    assert ([""] + entries)[1..] == entries;
    ResolvesOn(fs, cwd, rootfs, base, rootfs, [], entries, budget);
  }
}
