/**
  What configureMounts leaves behind, whatever the order and number of mounts.
 */
module MountTheorems {
  import opened Options
  import opened Paths
  import opened HostFs
  import opened Mkdir
  import opened Host
  import opened Resolve
  import opened Specification
  import opened Destinations
  import opened Mounts

  // ---------------------------------------------------------------- one mount

  // Nothing goes or changes, and no link is new.
  ghost predicate AddsNoLink(fs: Fs, gs: Fs) {
    Extends(fs, gs) && forall at | IsLink(gs, at) :: at in fs
  }

  predicate InPlace(fs: Fs, cwd: Place, dest: string, file: bool) {
    if file then Stat(fs, cwd, dest).Some? && !IsDir(Stat(fs, cwd, dest)) else IsDir(Stat(fs, cwd, dest))
  }

  lemma PreparedMakes(fs: Fs, cwd: Place, m: Mount, dest: string, user: User)
    requires WellFormed(fs) && IsFolder(fs, cwd)
    ensures var (gs, ok) := Prepared(fs, cwd, m, dest, user);
            && WellFormed(gs) && AddsNoLink(fs, gs)
            && (ok ==> InPlace(gs, cwd, dest, OntoFile(fs, cwd, m.source)))
  {
    var folder := Folder(DIR_MODE, user.uid, user.gid);
    if OntoFile(fs, cwd, m.source) {
      MakePathMakes(fs, cwd, Dir(dest), folder);
      CreatedIsFile(MakePath(fs, cwd, Dir(dest), folder).0, cwd, dest);
    } else {
      MakePathMakes(fs, cwd, dest, folder);
    }
  }

  lemma MountOneMakes(fs: Fs, cwd: Place, accepts: (string, string) -> bool, root: string, m: Mount, user: User)
    requires WellFormed(fs) && IsFolder(fs, cwd)
    ensures var (gs, line) := MountOne(fs, cwd, accepts, root, m, user);
            var dest, file := Destination(fs, cwd, root, m.destination).0, OntoFile(fs, cwd, m.source);
            && WellFormed(gs) && AddsNoLink(fs, gs)
            && (line.Some? ==>
                  && line.value == Line(m, dest, file) && HasPrefix(dest, root) && InPlace(gs, cwd, dest, file)
                  && (m.typ == "bind" ==> Stat(fs, cwd, m.source).Some?))
  {
    PreparedMakes(fs, cwd, m, Destination(fs, cwd, root, m.destination).0, user);
  }

  // ---------------------------------------------------------------- all mounts

  predicate Yields(step: Stepping, fs: Fs, m: Mount, gs: Fs, line: string) {
    step(fs, m) == (gs, Some(line))
  }

  // The trees the mounts are made in, one after another.
  ghost predicate Trees(step: Stepping, trees: seq<Fs>, mounts: seq<Mount>, lines: seq<string>) {
    && |trees| == |lines| + 1 && |lines| <= |mounts|
    && forall i | 0 <= i < |lines| :: Yields(step, trees[i], mounts[i], trees[i + 1], lines[i])
  }

  // The lines are those of a prefix of the mounts, in order; all of them exactly on success, and
  // otherwise the next mount is the first that is refused.
  lemma {:induction false} LinesFollowMounts(step: Stepping, fs: Fs, mounts: seq<Mount>) returns (trees: seq<Fs>)
    ensures var (gs, lines, ok) := MountAll(step, fs, mounts);
            && Trees(step, trees, mounts, lines) && trees[0] == fs
            && (ok <==> |lines| == |mounts|)
            && (if ok then gs == trees[|lines|] else step(trees[|lines|], mounts[|lines|]) == (gs, None))
    decreases |mounts|
  {
    trees := [fs];
    if mounts != [] {
      var (gs, line) := step(fs, mounts[0]);
      if line.Some? {
        var more := LinesFollowMounts(step, gs, mounts[1..]);
        trees := [fs] + more;
        var lines := MountAll(step, fs, mounts).1;
        forall i | 0 <= i < |lines| ensures Yields(step, trees[i], mounts[i], trees[i + 1], lines[i]) {
          if i > 0 { assert Yields(step, more[i - 1], mounts[1..][i - 1], more[i], lines[1..][i - 1]); }
        }
      }
    }
  }

  ghost predicate Grown(fs: Fs, gs: Fs) {
    WellFormed(gs) && AddsNoLink(fs, gs)
  }

  lemma {:induction false} TreesGrow(step: Stepping, trees: seq<Fs>, mounts: seq<Mount>, lines: seq<string>,
        cwd: Place, accepts: (string, string) -> bool, root: string, user: User, i: nat, j: nat)
    requires step == Mounting(cwd, accepts, root, user) && Trees(step, trees, mounts, lines)
    requires i <= j < |trees| && WellFormed(trees[0]) && IsFolder(trees[0], cwd)
    ensures Grown(trees[i], trees[j]) && IsFolder(trees[j], cwd)
    decreases j
  {
    if j > 0 {
      TreesGrow(step, trees, mounts, lines, cwd, accepts, root, user, if i < j then i else j - 1, j - 1);
      assert Yields(step, trees[j - 1], mounts[j - 1], trees[j], lines[j - 1]);
      MountOneMakes(trees[j - 1], cwd, accepts, root, Unified(mounts[j - 1]), user);
    }
  }

  lemma StatGrows(fs: Fs, gs: Fs, cwd: Place, path: string)
    requires Extends(fs, gs) && Stat(fs, cwd, path).Some?
    ensures Stat(gs, cwd, path) == Stat(fs, cwd, path)
  {
    WalkGrows(fs, gs, Start(cwd, path), Split(path), true, MAX_LINKS);
  }

  // What a finished mount promises of the final tree: its line names a destination under the root
  // path that is there, a directory or not as its source; the source of a bind mount is there.
  predicate Finished(fs: Fs, cwd: Place, root: string, m: Mount, line: string, dest: string, file: bool) {
    && line == Line(m, dest, file) && HasPrefix(dest, root) && InPlace(fs, cwd, dest, file)
    && (file ==> OntoFile(fs, cwd, m.source))
    && (m.typ == "bind" ==> Stat(fs, cwd, m.source).Some? && (file <==> !IsDir(Stat(fs, cwd, m.source))))
  }

  lemma FinishedStays(fs: Fs, gs: Fs, hs: Fs, cwd: Place, accepts: (string, string) -> bool, root: string, m: Mount,
        user: User, line: string)
    requires WellFormed(fs) && IsFolder(fs, cwd) && MountOne(fs, cwd, accepts, root, m, user) == (gs, Some(line))
             && Extends(gs, hs)
    ensures Finished(hs, cwd, root, m, line, Destination(fs, cwd, root, m.destination).0, OntoFile(fs, cwd, m.source))
  {
    MountOneMakes(fs, cwd, accepts, root, m, user);
    StatGrows(gs, hs, cwd, Destination(fs, cwd, root, m.destination).0);
    if Stat(fs, cwd, m.source).Some? { StatGrows(fs, hs, cwd, m.source); }
  }

  // Every line that was written holds its promise in the final tree, in which nothing of the first
  // tree is gone or changed.
  lemma EveryMountHasItsPlace(fs: Fs, cwd: Place, accepts: (string, string) -> bool, root: string,
        mounts: seq<Mount>, user: User)
    returns (trees: seq<Fs>, dests: seq<string>, files: seq<bool>)
    requires WellFormed(fs) && IsFolder(fs, cwd)
    ensures var step := Mounting(cwd, accepts, root, user);
            var (gs, lines, ok) := MountAll(step, fs, mounts);
            && Trees(step, trees, mounts, lines) && trees[0] == fs && (ok <==> |lines| == |mounts|)
            && Extends(fs, gs) && |dests| == |files| == |lines|
            && (forall i | 0 <= i < |lines| :: WellFormed(trees[i]) && AddsNoLink(fs, trees[i])
                 && IsFolder(trees[i], cwd)
                  && dests[i] == Destination(trees[i], cwd, root, Unified(mounts[i]).destination).0)
            && (forall i | 0 <= i < |lines| ::
                 Finished(gs, cwd, root, Unified(mounts[i]), lines[i], dests[i], files[i]))
  {
    var step := Mounting(cwd, accepts, root, user);
    var (gs, lines, ok) := MountAll(step, fs, mounts);
    trees := LinesFollowMounts(step, fs, mounts);
    var ts := trees;
    dests := seq(|lines|,
        i requires 0 <= i < |lines| => Destination(ts[i], cwd, root, Unified(mounts[i]).destination).0);
    files := seq(|lines|, i requires 0 <= i < |lines| => OntoFile(ts[i], cwd, Unified(mounts[i]).source));
    var n := |lines|;
    TreesGrow(step, trees, mounts, lines, cwd, accepts, root, user, 0, n);
    if !ok { MountOneMakes(trees[n], cwd, accepts, root, Unified(mounts[n]), user); }
    assert Extends(trees[n], gs);
    forall i | 0 <= i < n
      ensures WellFormed(trees[i]) && AddsNoLink(fs, trees[i]) && IsFolder(trees[i], cwd)
      ensures Finished(gs, cwd, root, Unified(mounts[i]), lines[i], dests[i], files[i])
    {
      TreesGrow(step, trees, mounts, lines, cwd, accepts, root, user, 0, i);
      TreesGrow(step, trees, mounts, lines, cwd, accepts, root, user, i + 1, n);
      assert Yields(step, trees[i], mounts[i], trees[i + 1], lines[i]);
      FinishedStays(trees[i], trees[i + 1], gs, cwd, accepts, root, Unified(mounts[i]), user, lines[i]);
    }
  }

  // ---------------------------------------------------------------- all mounts on a tree of plain links

  lemma {:induction false} SamePlain(fs: Fs, gs: Fs, base: Place, at: Place, parts: seq<string>)
    requires AddsNoLink(fs, gs)
    ensures Plain(fs, base, at, parts) <==> Plain(gs, base, at, parts)
    decreases |parts|
  {
    if parts != [] {
      if parts[0] == "" || parts[0] == "." { SamePlain(fs, gs, base, at, parts[1..]); }
      else if parts[0] == ".." { SamePlain(fs, gs, base, Above(at), parts[1..]); }
      else { SamePlain(fs, gs, base, at + [parts[0]], parts[1..]); }
    }
  }

  lemma {:induction false} SameChroot(fs: Fs, gs: Fs, base: Place, at: Place, parts: seq<string>, budget: nat)
    requires AddsNoLink(fs, gs)
    ensures Chroot(fs, base, at, parts, budget) == Chroot(gs, base, at, parts, budget)
    decreases budget, |parts|
  {
    if parts != [] {
      var next := at + [parts[0]];
      if parts[0] == "" || parts[0] == "." { SameChroot(fs, gs, base, at, parts[1..], budget); }
      else if parts[0] == ".." { SameChroot(fs, gs, base, Above(at), parts[1..], budget); }
      else if IsLink(fs, base + next) {
        var t := fs[base + next].target;
        if budget > 0 { SameChroot(fs, gs, base, if IsAbs(t) then [] else at, Split(t) + parts[1..], budget - 1); }
      } else {
        SameChroot(fs, gs, base, next, parts[1..], budget);
      }
    }
  }

  lemma PlainLinksStay(fs: Fs, gs: Fs, base: Place, root: string)
    requires AddsNoLink(fs, gs) && LinksPlain(fs, base, root)
    ensures LinksPlain(gs, base, root)
  {
    forall at: Place | at != [] && IsLink(gs, base + at) ensures LinkPlain(gs, base, root, at) {
      assert IsLink(fs, base + at) && LinkPlain(fs, base, root, at);
      var t := fs[base + at].target;
      SamePlain(fs, gs, base, Origin(Above(at), t), Split(t));
    }
  }

  lemma RootStays(fs: Fs, gs: Fs, cwd: Place, root: string, base: Place)
    requires Extends(fs, gs) && RootAt(fs, cwd, root, base)
    ensures RootAt(gs, cwd, root, base)
  {
    if Clean(root) != "" { WalkGrows(fs, gs, Start(cwd, Clean(root)), Split(Clean(root)), false, MAX_LINKS); }
  }

  // In any tree the mounts come to, a destination without ".." is where it leads in a chroot of the
  // first tree, clear of links, and is never refused as an escape.
  lemma DestinationInFirstTree(fs: Fs, gs: Fs, cwd: Place, root: string, base: Place, dst: string, budget: nat)
    requires WellFormed(fs) && WellFormed(gs) && AddsNoLink(fs, gs) && IsFolder(gs, cwd) && RootAt(fs, cwd, root, base)
    requires Clean(root) == root && root != "." && LinksPlain(fs, base, root)
    requires NoDotDot(Split(dst)) && budget >= |Split(dst)|
    ensures var r := Chroot(fs, base, [], Split(dst), budget); var dest := Destination(gs, cwd, root, dst).0;
            r.Some? && dest == Show(Below(root, r.value)) && Clear(gs, base, r.value) && HasPrefix(dest, root)
  {
    PlainLinksStay(fs, gs, base, root);
    RootStays(fs, gs, cwd, root, base);
    PlainLinksResolve(gs, cwd, root, base, dst, budget);
    SameChroot(fs, gs, base, [], Split(dst), budget);
    BelowHasPrefix(root, Chroot(fs, base, [], Split(dst), budget).value);
  }

  // So on a tree whose links are plain, every line written names the chroot-style resolution of its
  // destination in the first tree, however many directories earlier mounts have made.
  lemma LinesNameChrootedPlaces(fs: Fs, cwd: Place, accepts: (string, string) -> bool, root: string, base: Place,
        mounts: seq<Mount>, user: User)
    returns (files: seq<bool>)
    requires WellFormed(fs) && IsFolder(fs, cwd) && RootAt(fs, cwd, root, base)
    requires Clean(root) == root && root != "." && LinksPlain(fs, base, root)
    requires forall m | m in mounts :: NoDotDot(Split(m.destination))
    ensures var (gs, lines, ok) := MountAll(Mounting(cwd, accepts, root, user), fs, mounts);
            |files| == |lines| <= |mounts| &&
            forall i | 0 <= i < |lines| ::
              var m := Unified(mounts[i]); var r := Chroot(fs, base, [], Split(m.destination), |Split(m.destination)|);
              r.Some? && lines[i] == Line(m, Show(Below(root, r.value)), files[i]) && Clear(fs, base, r.value)
  {
    var trees, dests;
    trees, dests, files := EveryMountHasItsPlace(fs, cwd, accepts, root, mounts, user);
    var (gs, lines, ok) := MountAll(Mounting(cwd, accepts, root, user), fs, mounts);
    forall i | 0 <= i < |lines|
      ensures var m := Unified(mounts[i]); var r := Chroot(fs, base, [], Split(m.destination), |Split(m.destination)|);
              r.Some? && lines[i] == Line(m, Show(Below(root, r.value)), files[i]) && Clear(fs, base, r.value)
    {
      var m := Unified(mounts[i]);
      assert mounts[i] in mounts && m.destination == mounts[i].destination;
      DestinationInFirstTree(fs, trees[i], cwd, root, base, m.destination, |Split(m.destination)|);
      assert Finished(gs, cwd, root, m, lines[i], dests[i], files[i]);
    }
  }
}
