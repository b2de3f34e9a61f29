/**
  The host as the runtime changes it: system calls that make nodes, and mkdirAll on top of them.
 */
module Host {
  import opened Options
  import opened Paths
  import opened HostFs
  import opened Mkdir

  class Host {
    var fs: Fs
    const cwd: Place

    constructor (fs: Fs, cwd: Place)
      requires WellFormed(fs) && IsFolder(fs, cwd)
      ensures Valid() && this.fs == fs && this.cwd == cwd
    {
      this.fs, this.cwd := fs, cwd;
    }

    ghost predicate Valid()
      reads this
    {
      WellFormed(fs) && IsFolder(fs, cwd)
    }

    // mkdir(2) never follows the last component, not even for a final slash.
    method MakeDir(path: string, perm: int) returns (ok: bool)
      requires Valid()
      modifies this`fs
      ensures Valid()
      ensures var r := Walk(old(fs), Start(cwd, path), Trim(Split(path)), false, MAX_LINKS);
              && (ok <==> path != "" && r.Missing?)
              && fs == if ok then old(fs)[r.at := Folder(perm, 0, 0)] else old(fs)
    {
      if path == "" { return false; }
      var parts := Trim(Split(path));
      var r := Walk(fs, Start(cwd, path), parts, false, MAX_LINKS);
      ok := r.Missing?;
      if ok {
        Trimmed(Split(path));
        MissingIsFree(fs, Start(cwd, path), parts, false, MAX_LINKS);
        PutKeepsForm(fs, r.at, Folder(perm, 0, 0));
        fs := fs[r.at := Folder(perm, 0, 0)];
      }
    }

    method Chown(path: string, uid: int, gid: int) returns (ok: bool)
      requires Valid()
      modifies this`fs
      ensures Valid()
      ensures var r := LookUp(old(fs), cwd, path, true);
              && ok == r.Found?
              && fs == if ok && IsFolder(old(fs), r.at) then old(fs)[r.at := old(fs)[r.at].(uid := uid, gid := gid)]
                   else old(fs)
    {
      var r := LookUp(fs, cwd, path, true);
      ok := r.Found?;
      if ok && IsFolder(fs, r.at) {
        assert Rooted(fs, r.at);
        PutKeepsForm(fs, r.at, fs[r.at].(uid := uid, gid := gid));
        fs := fs[r.at := fs[r.at].(uid := uid, gid := gid)];
      }
    }

    // open(2) with O_CREAT.
    method OpenCreate(path: string) returns (ok: bool)
      requires Valid()
      modifies this`fs
      ensures Valid()
      ensures (fs, ok) == Created(old(fs), cwd, path)
    {
      CreatedIsFile(fs, cwd, path);
      var r := LookUp(fs, cwd, path, true);
      match r
      case Found(at, left) => ok := !IsFolder(fs, at);
      case Missing(at, slash) =>
        ok := !slash;
        if ok { fs := fs[at := File]; }
      case Lost => ok := false;
    }

    // mkdir, a second look if it refuses, chown.
    method MakeLast(path: string, perm: int, uid: int, gid: int) returns (ok: bool)
      requires Valid()
      modifies this`fs
      ensures Valid()
      ensures (fs, ok) == LastOf(old(fs), cwd, path, Folder(perm, uid, gid))
    {
      ok := MakeDir(path, perm);
      if ok { MadeAndOwned(old(fs), Start(cwd, path), Split(path), perm, uid, gid); }
      if !ok {
        ok := IsDir(Lstat(fs, cwd, path));
        return;
      }
      ok := Chown(path, uid, gid);
    }

    method MkdirAll(path: string, perm: int, uid: int, gid: int) returns (ok: bool)
      requires Valid()
      modifies this`fs
      ensures Valid()
      ensures (fs, ok) == MakePath(old(fs), cwd, path, Folder(perm, uid, gid))
      decreases |path|
    {
      PathFound(fs, cwd, path, Folder(perm, uid, gid));
      var dir := Stat(fs, cwd, path);
      if dir.Some? { return dir.value.Folder?; }

      var i, j := LastElement(path);
      ParentThenLast(fs, cwd, path, Folder(perm, uid, gid), i, j);
      if j > 1 {
        ok := MkdirAll(path[..j - 1], perm, uid, gid);
        if !ok { return; }
      }
      ok := MakeLast(path, perm, uid, gid);
    }
  }

  function Created(fs: Fs, cwd: Place, path: string): (Fs, bool) {
    match LookUp(fs, cwd, path, true)
    case Found(at, _) => (fs, !IsFolder(fs, at))
    case Missing(at, slash) => if slash then (fs, false) else (fs[at := File], true)
    case Lost => (fs, false)
  }

  // What can be opened is no directory; at most this one file is new.
  lemma CreatedIsFile(fs: Fs, cwd: Place, path: string)
    requires WellFormed(fs) && IsFolder(fs, cwd)
    ensures var (gs, ok) := Created(fs, cwd, path);
            && GrowsBy(fs, gs, File)
            && (ok ==> Stat(gs, cwd, path).Some? && !IsDir(Stat(gs, cwd, path)))
  {
    var at, parts := Start(cwd, path), Split(path);
    match LookUp(fs, cwd, path, true)
    case Found(_, _) => FoundIsThere(fs, at, parts, true, MAX_LINKS);
    case Missing(q, slash) =>
      MissingIsFree(fs, at, parts, true, MAX_LINKS);
      PutKeepsForm(fs, q, File);
      if !slash { WalkFindsNew(fs, File, at, parts, true, MAX_LINKS); }
    case Lost =>
  }

  // The scan back over final slashes, then over the last element, which is path[j..i].
  ghost predicate Scanned(path: string, i: nat, j: nat) {
    && j <= i <= |path|
    && (forall k | i <= k < |path| :: path[k] == '/') && (i > 0 ==> path[i - 1] != '/')
    && (forall k | j <= k < i :: path[k] != '/') && (j > 0 ==> path[j - 1] == '/')
  }

  method LastElement(path: string) returns (i: nat, j: nat)
    ensures Scanned(path, i, j)
  {
    i := |path|;
    while i > 0 && path[i - 1] == '/'
      invariant i <= |path| && forall k | i <= k < |path| :: path[k] == '/'
    {
      i := i - 1;
    }
    j := i;
    while j > 0 && path[j - 1] != '/'
      invariant j <= i && forall k | j <= k < i :: path[k] != '/'
    {
      j := j - 1;
    }
  }

  // What mkdirAll makes of a path.
  function MakePath(fs: Fs, cwd: Place, path: string, node: Node): (Fs, bool) {
    if path == "" then (fs, false) else MakeAll(fs, Start(cwd, path), Split(path), node)
  }

  function LastOf(fs: Fs, cwd: Place, path: string, node: Node): (Fs, bool) {
    if path == "" then (fs, false) else MakeOne(fs, Start(cwd, path), Split(path), node)
  }

  // On success the path is a directory; all that is new is a directory with the given mode and owner.
  lemma MakePathMakes(fs: Fs, cwd: Place, path: string, node: Node)
    requires WellFormed(fs) && IsFolder(fs, cwd) && node.Folder?
    ensures var (gs, ok) := MakePath(fs, cwd, path, node); GrowsBy(fs, gs, node) && (ok ==> IsDir(Stat(gs, cwd, path)))
  {
    if path != "" {
      MakeAllGrows(fs, Start(cwd, path), Split(path), node);
      if MakePath(fs, cwd, path, node).1 { MakeAllMakes(fs, Start(cwd, path), Split(path), node); }
    }
  }

  lemma PathFound(fs: Fs, cwd: Place, path: string, node: Node)
    requires WellFormed(fs) && IsFolder(fs, cwd)
    ensures Stat(fs, cwd, path).Some? <==> LookUp(fs, cwd, path, true).Found?
    ensures Stat(fs, cwd, path).Some? ==> MakePath(fs, cwd, path, node) == (fs, Stat(fs, cwd, path).value.Folder?)
  {
    if LookUp(fs, cwd, path, true).Found? { FoundIsThere(fs, Start(cwd, path), Split(path), true, MAX_LINKS); }
  }

  lemma ParentThenLast(fs: Fs, cwd: Place, path: string, node: Node, i: nat, j: nat)
    requires WellFormed(fs) && IsFolder(fs, cwd) && !LookUp(fs, cwd, path, true).Found? && Scanned(path, i, j)
    ensures MakePath(fs, cwd, path, node) ==
            var (gs, ok) := if j > 1 then MakePath(fs, cwd, path[..j - 1], node) else (fs, true);
            if ok then LastOf(gs, cwd, path, node) else (gs, false)
  {
    ParentParts(path, i, j);
    var at, t := Start(cwd, path), Trim(Split(path));
    Trimmed(Split(path));
    if i == 0 {
      assert Split(path)[0..] == Split(path);
      if path != "" { WalkSlashes(fs, [], Split(path), true, MAX_LINKS); }
    } else {
      if j == 1 {
        assert path[..0] == "" && Split("") == [""];
        WalkSlashes(fs, at, [""], true, MAX_LINKS);
      }
      assert MakeAll(fs, at, t[..|t| - 1], node) == if j > 1 then MakePath(fs, cwd, path[..j - 1], node)
          else (fs, true);
    }
  }

  lemma {:induction false} SplitSlashes(elem: string, tail: string)
    requires '/' !in elem && forall k | 0 <= k < |tail| :: tail[k] == '/'
    ensures var s := Split(elem + tail); |s| == 1 + |tail| && s[0] == elem && AllEmpty(s[1..])
  {
    if tail == "" {
      assert elem + tail == elem;
      SplitSingle(elem);
    } else {
      var init := tail[..|tail| - 1];
      assert elem + tail == (elem + init) + "/" + "";
      SplitConcat(elem + init, "");
      SplitSlashes(elem, init);
    }
  }

  // The parts of the path before the last element.
  function Before(path: string, j: nat): seq<string>
    requires j <= |path|
  {
    if j == 0 then [] else Split(path[..j - 1])
  }

  lemma ScannedParts(path: string, i: nat, j: nat) returns (rest: seq<string>)
    requires Scanned(path, i, j)
    ensures AllEmpty(rest) && Split(path) == Before(path, j) + [path[j..i]] + rest
  {
    var elem, tail := path[j..i], path[i..];
    SplitSlashes(elem, tail);
    PathParts(path, j);
    assert path[j..] == elem + tail;
    rest := Split(elem + tail)[1..];
    assert Split(elem + tail) == [elem] + rest;
  }

  // Where the two scans stop is where the components say: the last element but for final slashes,
  // and the path before it.
  lemma ParentParts(path: string, i: nat, j: nat)
    requires Scanned(path, i, j)
    ensures var t := Trim(Split(path));
            && (t == [] <==> i == 0)
            && (i > 0 ==> t[|t| - 1] == path[j..i] && t[..|t| - 1] == Before(path, j))
  {
    var rest := ScannedParts(path, i, j);
    var t := Before(path, j) + [path[j..i]];
    TrimEmpty(t, rest);
    assert t[|t| - 1] == path[j..i] && t[..|t| - 1] == Before(path, j);
    if i == 0 { assert path[j..i] == "" && t == [""]; } else { assert path[j..i] != ""; }
  }

  lemma PathParts(path: string, j: nat)
    requires j <= |path| && (j > 0 ==> path[j - 1] == '/')
    ensures Split(path) == Before(path, j) + Split(path[j..])
  {
    if j == 0 {
      assert path[j..] == path;
    } else {
      assert path == path[..j - 1] + "/" + path[j..];
      SplitConcat(path[..j - 1], path[j..]);
    }
  }

  lemma {:induction false} TrimEmpty(a: seq<string>, e: seq<string>)
    requires AllEmpty(e)
    ensures Trim(a + e) == Trim(a)
    decreases |e|
  {
    if e == [] {
      assert a + e == a;
    } else {
      assert (a + e)[..|a + e| - 1] == a + e[..|e| - 1];
      TrimEmpty(a, e[..|e| - 1]);
    }
  }

  // mkdir and chown together make the node that MakeOne says.
  lemma MadeAndOwned(fs: Fs, at: Place, parts: seq<string>, perm: int, uid: int, gid: int)
    requires Walk(fs, at, Trim(parts), false, MAX_LINKS).Missing?
    ensures var q := Walk(fs, at, Trim(parts), false, MAX_LINKS).at;
            var gs := fs[q := Folder(perm, 0, 0)];
            var r := Walk(gs, at, parts, true, MAX_LINKS);
            && r.Found? && r.at == q
            && gs[q := gs[q].(uid := uid, gid := gid)] == MakeOne(fs, at, parts, Folder(perm, uid, gid)).0
  {
    NewIsFound(fs, at, parts, Folder(perm, 0, 0));
  }
}
