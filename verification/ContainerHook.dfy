/**
  The container hook: a device node for every line of devices.txt, with the directories on the way.

  The hook works below the container's root directory in the host's tree, and what it returns is decided
  by errno, which failing calls set and which is cleared in one place only.
 */
module ContainerHook {
  import opened Options
  import opened Paths
  import opened HostFs
  import opened Mkdir
  import opened Resolve
  import opened Devices

  const DIRECTORY: Node := Folder(493, 0, 0) // 0755

  // The path of a device, relative to the container's root.
  function Relative(path: string): string {
    if path != "" && path[0] == '/' then path[1..] else path
  }

  function PlaceOf(r: Record): Place {
    Split(Relative(r.path))
  }

  predicate Supported(typ: char) {
    typ == 'b' || typ == 'c' || typ == 'f'
  }

  // strtok(path, "/"), call by call.
  function Tokens(parts: seq<string>): seq<string> {
    if parts == [] then [] else if parts[0] == "" then Tokens(parts[1..]) else [parts[0]] + Tokens(parts[1..])
  }

  // ---------------------------------------------------------------- what the hook does

  // The tree, where the hook stands if it could go there, and whether errno is set.
  datatype Entered = Entered(fs: Fs, at: Option<Place>, errno: bool)

  // mkdir and chdir for one name after another. That a directory is there already clears errno.
  function Enter(fs: Fs, at: Place, dirs: seq<string>, errno: bool): Entered
    decreases |dirs|
  {
    if dirs == [] then Entered(fs, Some(at), errno) else
    var made := Walk(fs, at, [dirs[0]], false, MAX_LINKS);
    var gs := if made.Missing? then fs[made.at := DIRECTORY] else fs;
    var to := Walk(gs, at, [dirs[0]], true, MAX_LINKS);
    if to.Found? && IsFolder(gs, to.at) then Enter(gs, to.at, dirs[1..], errno && made.Missing?)
        else Entered(gs, None, true)
  }

  datatype Outcome = Outcome(fs: Fs, made: seq<Record>, done: bool, errno: bool)

  // One line of the file. A failing stat sets errno.
  function MakeDevice(fs: Fs, base: Place, r: Record, errno: bool): Outcome {
    var parts := PlaceOf(r);
    if Stat(fs, base, Relative(r.path)).Some? then Outcome(fs, [], true, errno)
    else if !Supported(r.typ) then Outcome(fs, [], false, true)
    else
      var e := Enter(fs, base, Tokens(parts[..|parts| - 1]), true);
      if e.at.None? then Outcome(e.fs, [], false, true) else
      var node := Walk(e.fs, e.at.value, [parts[|parts| - 1]], false, MAX_LINKS);
      if node.Missing? then Outcome(e.fs[node.at := File], [r], true, e.errno) else Outcome(e.fs, [], false, true)
  }

  function Resumed(o: Outcome, next: Outcome): Outcome {
    next.(made := o.made + next.made)
  }

  // The whole file.
  function Hook(s: string, fs: Fs, base: Place, errno: bool): Outcome
    decreases |s|
  {
    if Skip(s) == "" then Outcome(fs, [], true, errno) else
    match ScanRecord(s)
    case Got(r, rest) =>
      var o := MakeDevice(fs, base, r, errno);
      if o.done then Resumed(o, Hook(rest, o.fs, base, o.errno)) else o
    case _ => Outcome(fs, [], false, errno)
  }

  class Rootfs {
    var fs: Fs
    const base: Place
    var errno: bool

    constructor (fs: Fs, base: Place)
      ensures this.fs == fs && this.base == base && !errno
    {
      this.fs, this.base, errno := fs, base, false;
    }

    method EnterDirs(dirs: seq<string>) returns (at: Option<Place>)
      modifies this`fs, this`errno
      ensures Entered(fs, at, errno) == Enter(old(fs), base, dirs, old(errno)) && (at.None? ==> errno)
    {
      var here := base;
      for i := 0 to |dirs|
        invariant Enter(old(fs), base, dirs, old(errno)) == Enter(fs, here, dirs[i..], errno)
      {
        assert dirs[i..][1..] == dirs[i + 1..];
        var made := Walk(fs, here, [dirs[i]], false, MAX_LINKS);
        if made.Missing? { fs := fs[made.at := DIRECTORY]; } else { errno := false; }
        var to := Walk(fs, here, [dirs[i]], true, MAX_LINKS);
        if !to.Found? || !IsFolder(fs, to.at) {
          errno := true;
          return None;
        }
        here := to.at;
      }
      return Some(here);
    }

    method MakeNode(r: Record) returns (made: seq<Record>, ok: bool)
      modifies this`fs, this`errno
      ensures Outcome(fs, made, ok, errno) == MakeDevice(old(fs), base, r, old(errno))
    {
      var dev := Relative(r.path);
      if Stat(fs, base, dev).Some? { return [], true; }
      errno := true;
      if !Supported(r.typ) { return [], false; }
      var parts := Split(dev);
      var at := EnterDirs(Tokens(parts[..|parts| - 1]));
      if at.None? { return [], false; }
      var node := Walk(fs, at.value, [parts[|parts| - 1]], false, MAX_LINKS);
      if !node.Missing? {
        errno := true;
        return [], false;
      }
      fs := fs[node.at := File];
      return [r], true;
    }

    // Without the file there is nothing to do. Otherwise the hook fails on errors and on whatever is
    // left in errno at the end of the file.
    method CreateDevices(file: Option<string>) returns (made: seq<Record>, ret: int)
      modifies this`fs, this`errno
      ensures file.None? ==> made == [] && ret == 0 && fs == old(fs) && errno
      ensures file.Some? ==>
                var o := Hook(file.value, old(fs), base, old(errno));
                fs == o.fs && made == o.made && errno == o.errno && ret == if o.done && !o.errno then 0 else -1
    {
      made := [];
      if file.None? {
        errno := true;
        return made, 0;
      }
      var s := file.value;
      ghost var whole := Hook(s, fs, base, errno);
      ResumedNothing(whole);
      while true
        invariant whole == Resumed(Outcome(fs, made, true, errno), Hook(s, fs, base, errno))
        decreases |s|
      {
        if Skip(s) == "" {
          ResumedEnds(made, Hook(s, fs, base, errno));
          return made, if errno then -1 else 0;
        }
        var scan := ScanRecord(s);
        if !scan.Got? {
          ResumedEnds(made, Hook(s, fs, base, errno));
          return made, -1;
        }
        ghost var o, before := MakeDevice(fs, base, scan.value, errno), Outcome(fs, made, true, errno);
        var one, ok := MakeNode(scan.value);
        s := scan.rest;
        ResumedMore(before, o, Hook(s, fs, base, errno));
        made := made + one;
        if !ok { return made, -1; }
      }
    }
  }

  lemma ResumedNothing(o: Outcome)
    ensures forall fs, errno :: Resumed(Outcome(fs, [], true, errno), o) == o
  {
    assert [] + o.made == o.made;
  }

  lemma ResumedEnds(made: seq<Record>, o: Outcome)
    requires o.made == []
    ensures made + o.made == made
  {
  }

  lemma ResumedMore(a: Outcome, b: Outcome, c: Outcome)
    ensures Resumed(a, Resumed(b, c)) == Resumed(Resumed(a, b), c)
  {
    assert a.made + (b.made + c.made) == a.made + b.made + c.made;
  }

  // ---------------------------------------------------------------- what every file keeps

  // Nothing goes or changes; all that is new is directories and device nodes.
  ghost predicate Adds(fs: Fs, gs: Fs) {
    && Extends(fs, gs) && WellFormed(gs)
    && forall q | q in gs && q !in fs :: gs[q] == DIRECTORY || gs[q] == File
  }

  lemma OneMissing(fs: Fs, at: Place, name: string, node: Node)
    requires WellFormed(fs) && at in fs && '/' !in name && (node == DIRECTORY || node == File)
    requires Walk(fs, at, [name], false, MAX_LINKS).Missing?
    ensures Adds(fs, fs[Walk(fs, at, [name], false, MAX_LINKS).at := node])
  {
    MissingIsFree(fs, at, [name], false, MAX_LINKS);
    PutKeepsForm(fs, Walk(fs, at, [name], false, MAX_LINKS).at, node);
  }

  lemma {:induction false} EnterAdds(fs: Fs, at: Place, dirs: seq<string>, errno: bool)
    requires WellFormed(fs) && at in fs && AreParts(dirs)
    ensures var e := Enter(fs, at, dirs, errno); Adds(fs, e.fs) && (e.at.Some? ==> e.at.value in e.fs)
    decreases |dirs|
  {
    if dirs != [] {
      var made := Walk(fs, at, [dirs[0]], false, MAX_LINKS);
      var gs := if made.Missing? then fs[made.at := DIRECTORY] else fs;
      if made.Missing? { OneMissing(fs, at, dirs[0], DIRECTORY); }
      var to := Walk(gs, at, [dirs[0]], true, MAX_LINKS);
      if to.Found? && IsFolder(gs, to.at) { EnterAdds(gs, to.at, dirs[1..], errno && made.Missing?); }
    }
  }

  lemma {:induction false} TokensAreParts(parts: seq<string>)
    requires AreParts(parts)
    ensures AreParts(Tokens(parts))
  {
    if parts != [] { TokensAreParts(parts[1..]); }
  }

  lemma MakeDeviceAdds(fs: Fs, base: Place, r: Record, errno: bool)
    requires WellFormed(fs) && base in fs
    ensures Adds(fs, MakeDevice(fs, base, r, errno).fs)
  {
    var parts := PlaceOf(r);
    TokensAreParts(parts[..|parts| - 1]);
    EnterAdds(fs, base, Tokens(parts[..|parts| - 1]), true);
    var e := Enter(fs, base, Tokens(parts[..|parts| - 1]), true);
    if e.at.Some? && Walk(e.fs, e.at.value, [parts[|parts| - 1]], false, MAX_LINKS).Missing? {
      OneMissing(e.fs, e.at.value, parts[|parts| - 1], File);
    }
  }

  lemma {:induction false} HookAdds(s: string, fs: Fs, base: Place, errno: bool)
    requires WellFormed(fs) && base in fs
    ensures Adds(fs, Hook(s, fs, base, errno).fs)
    decreases |s|
  {
    if Skip(s) != "" {
      var scan := ScanRecord(s);
      if scan.Got? {
        MakeDeviceAdds(fs, base, scan.value, errno);
        var o := MakeDevice(fs, base, scan.value, errno);
        if o.done { HookAdds(scan.rest, o.fs, base, o.errno); }
      }
    }
  }

  // ---------------------------------------------------------------- one device

  // The way to a place below base is free or directories, and the place itself is no link.
  predicate Open(fs: Fs, base: Place, at: Place) {
    && at != [] && AllNames(at) && !IsLink(fs, base + at)
    && forall k | 0 < k < |at| && base + at[..k] in fs :: IsFolder(fs, base + at[..k])
  }

  lemma StatOpen(fs: Fs, base: Place, r: Record)
    requires WellFormed(fs) && IsFolder(fs, base) && Open(fs, base, PlaceOf(r))
    ensures Stat(fs, base, Relative(r.path)).Some? <==> base + PlaceOf(r) in fs
  {
    var dev, at := Relative(r.path), PlaceOf(r);
    assert dev != "" && !IsAbs(dev) by { assert IsName(at[0]); }
    WalkNames(fs, base, at, true, MAX_LINKS);
  }

  lemma {:induction false} NamesAreTokens(at: Place)
    requires AllNames(at)
    ensures Tokens(at) == at
  {
    if at != [] { NamesAreTokens(at[1..]); }
  }

  // The nearest directory may as well be made first.
  lemma {:induction false} WithAllFrom(fs: Fs, p: Place, q: Place, node: Node)
    requires WellFormed(fs) && p !in fs && p != [] && p[..|p| - 1] in fs && p <= q
    ensures WithAll(fs[p := node], q, node) == WithAll(fs, q, node)
    decreases |q|
  {
    if |q| == |p| {
      assert p == q;
    } else {
      assert q[..|p|] == p;
      if q in fs { AncestorsThere(fs, q, |p|); }
      WithAllFrom(fs, p, q[..|q| - 1], node);
    }
  }

  predicate OpenDirs(fs: Fs, at: Place, dirs: Place) {
    AllNames(dirs) && forall k | 0 < k <= |dirs| && at + dirs[..k] in fs :: IsFolder(fs, at + dirs[..k])
  }

  function AfterFirst(fs: Fs, at: Place, name: string): Fs {
    if at + [name] in fs then fs else fs[at + [name] := DIRECTORY]
  }

  lemma FirstWalked(fs: Fs, at: Place, name: string)
    requires IsFolder(fs, at) && IsName(name) && (at + [name] in fs ==> IsFolder(fs, at + [name]))
    ensures var next := at + [name]; var gs := AfterFirst(fs, at, name);
            && Walk(fs, at, [name], false, MAX_LINKS) ==
                 (if next in fs then Found(next, MAX_LINKS) else Missing(next, false))
            && Walk(gs, at, [name], true, MAX_LINKS) == Found(next, MAX_LINKS) && IsFolder(gs, next)
  {
    OneName(fs, at, name, false, MAX_LINKS);
    OneName(AfterFirst(fs, at, name), at, name, true, MAX_LINKS);
  }

  lemma FirstDir(fs: Fs, at: Place, dirs: Place)
    requires WellFormed(fs) && IsFolder(fs, at) && OpenDirs(fs, at, dirs) && dirs != []
    ensures IsName(dirs[0]) && (at + [dirs[0]] in fs ==> IsFolder(fs, at + [dirs[0]]))
    ensures WellFormed(AfterFirst(fs, at, dirs[0])) && OpenDirs(AfterFirst(fs, at, dirs[0]), at + [dirs[0]], dirs[1..])
  {
    var next, gs, rest := at + [dirs[0]], AfterFirst(fs, at, dirs[0]), dirs[1..];
    assert dirs[..1] == [dirs[0]] && IsName(dirs[0]);
    if next !in fs {
      assert next[..|next| - 1] == at;
      PutKeepsForm(fs, next, DIRECTORY);
    }
    forall k | 0 < k <= |rest| && next + rest[..k] in gs ensures IsFolder(gs, next + rest[..k]) {
      assert next + rest[..k] == at + dirs[..k + 1];
    }
  }

  lemma EnterNext(fs: Fs, at: Place, dirs: Place, errno: bool)
    requires dirs != [] && IsFolder(fs, at) && IsName(dirs[0])
             && (at + [dirs[0]] in fs ==> IsFolder(fs, at + [dirs[0]]))
    ensures var next := at + [dirs[0]];
            Enter(fs, at, dirs, errno) == Enter(AfterFirst(fs, at, dirs[0]), next, dirs[1..], errno && next !in fs)
  {
    FirstWalked(fs, at, dirs[0]);
  }

  // Nothing is below a directory that is made, and the directories below it are the same as before.
  lemma BelowFirst(fs: Fs, at: Place, dirs: Place)
    requires WellFormed(fs) && IsFolder(fs, at) && dirs != []
    ensures var next := at + [dirs[0]];
            && WithAll(AfterFirst(fs, at, dirs[0]), next + dirs[1..], DIRECTORY) ==
                 WithAll(fs, next + dirs[1..], DIRECTORY)
            && (|dirs| > 1 && next !in fs ==> next + [dirs[1]] !in AfterFirst(fs, at, dirs[0]))
  {
    var next := at + [dirs[0]];
    if next !in fs {
      assert next[..|next| - 1] == at;
      WithAllFrom(fs, next, next + dirs[1..], DIRECTORY);
      if |dirs| > 1 {
        var q := next + [dirs[1]];
        assert q[..|q| - 1] == next && (q in fs ==> Rooted(fs, q));
      }
    }
  }

  // errno stays set exactly if the first directory is new.
  lemma {:induction false} EnterOpen(fs: Fs, at: Place, dirs: Place, errno: bool)
    requires WellFormed(fs) && IsFolder(fs, at) && OpenDirs(fs, at, dirs)
    ensures Enter(fs, at, dirs, errno) ==
            Entered(WithAll(fs, at + dirs, DIRECTORY), Some(at + dirs), errno && (dirs == [] || at + [dirs[0]] !in fs))
    decreases |dirs|
  {
    if dirs == [] {
      assert at + dirs == at;
    } else {
      FirstDir(fs, at, dirs);
      EnterNext(fs, at, dirs, errno);
      BelowFirst(fs, at, dirs);
      var next := at + [dirs[0]];
      assert next + dirs[1..] == at + dirs;
      EnterOpen(AfterFirst(fs, at, dirs[0]), next, dirs[1..], errno && next !in fs);
    }
  }

  function Parent(at: Place): Place
    requires at != []
  {
    at[..|at| - 1]
  }

  function WithDevice(fs: Fs, base: Place, at: Place): Fs
    requires at != []
  {
    WithAll(fs, base + Parent(at), DIRECTORY)[base + at := File]
  }

  // No directory on the way that could clear errno.
  predicate FirstIsNew(fs: Fs, base: Place, at: Place)
    requires at != []
  {
    |at| == 1 || base + [at[0]] !in fs
  }

  lemma MakeDeviceOpen(fs: Fs, base: Place, r: Record, errno: bool)
    requires WellFormed(fs) && IsFolder(fs, base) && Open(fs, base, PlaceOf(r)) && Supported(r.typ)
    ensures var at := PlaceOf(r);
            MakeDevice(fs, base, r, errno) ==
            if base + at in fs then Outcome(fs, [], true, errno)
            else Outcome(WithDevice(fs, base, at), [r], true, FirstIsNew(fs, base, at))
  {
    var at := PlaceOf(r);
    StatOpen(fs, base, r);
    if base + at !in fs {
      var dirs, last := Parent(at), at[|at| - 1];
      NamesAreTokens(dirs);
      forall k | 0 < k <= |dirs| && base + dirs[..k] in fs ensures IsFolder(fs, base + dirs[..k]) {
        assert dirs[..k] == at[..k];
      }
      EnterOpen(fs, base, dirs, true);
      NewNodeIsMissing(fs, base, at);
    }
  }

  lemma NewNodeIsMissing(fs: Fs, base: Place, at: Place)
    requires WellFormed(fs) && IsFolder(fs, base) && Open(fs, base, at) && base + at !in fs
    ensures var gs := WithAll(fs, base + Parent(at), DIRECTORY);
            Walk(gs, base + Parent(at), [at[|at| - 1]], false, MAX_LINKS) == Missing(base + at, false)
  {
    var d, last := base + Parent(at), at[|at| - 1];
    assert base + at == d + [last];
    WithAllStep(fs, d, last, DIRECTORY);
    WithAllAddsAncestors(fs, d, DIRECTORY);
    if Parent(at) == [] { assert d == base; } else { assert Parent(at) == at[..|at| - 1]; }
    OneName(WithAll(fs, d, DIRECTORY), d, last, false, MAX_LINKS);
  }

  // ---------------------------------------------------------------- all devices

  // The lines of a file that was printed.
  function Process(records: seq<Record>, fs: Fs, base: Place, errno: bool): Outcome
    decreases |records|
  {
    if records == [] then Outcome(fs, [], true, errno) else
    var o := MakeDevice(fs, base, records[0], errno);
    if o.done then Resumed(o, Process(records[1..], o.fs, base, o.errno)) else o
  }

  lemma {:induction false} PrintedIsProcessed(records: seq<Record>, fs: Fs, base: Place, errno: bool)
    requires forall i | 0 <= i < |records| :: Scannable(records[i])
    ensures Hook(PrintAll(records), fs, base, errno) == Process(records, fs, base, errno)
    decreases |records|
  {
    if records != [] {
      var rest := PrintAll(records[1..]);
      FirstIsWord(records[1..]);
      FirstIsWord(records);
      PrintedLine(records[0], rest);
      LineRead(records[0], rest);
      var o := MakeDevice(fs, base, records[0], errno);
      PrintedIsProcessed(records[1..], o.fs, base, o.errno);
    }
  }

  // No device is to be made where another one needs a directory.
  predicate Apart(records: seq<Record>) {
    forall r, q | r in records && q in records :: !(PlaceOf(r) < PlaceOf(q))
  }

  predicate Makeable(fs: Fs, base: Place, records: seq<Record>) {
    Apart(records) && forall r | r in records :: Supported(r.typ) && Open(fs, base, PlaceOf(r))
  }

  // The first record of every path that is not there.
  function ToMake(records: seq<Record>, there: set<Place>): seq<Record>
    decreases |records|
  {
    if records == [] then []
    else if PlaceOf(records[0]) in there then ToMake(records[1..], there)
    else [records[0]] + ToMake(records[1..], there + {PlaceOf(records[0])})
  }

  function PlacesOf(records: seq<Record>): set<Place> {
    set r | r in records :: PlaceOf(r)
  }

  lemma {:induction false} ToMakeIsComplete(records: seq<Record>, there: set<Place>)
    ensures PlacesOf(records) <= there + PlacesOf(ToMake(records, there))
    ensures forall r | r in ToMake(records, there) :: r in records && PlaceOf(r) !in there
    decreases |records|
  {
    if records != [] {
      var r, rest := records[0], records[1..];
      assert forall q | q in records :: q == r || q in rest;
      if PlaceOf(r) in there {
        ToMakeIsComplete(rest, there);
        assert forall q | q in rest :: PlaceOf(q) in PlacesOf(rest);
      } else {
        ToMakeIsComplete(rest, there + {PlaceOf(r)});
        assert forall q | q in rest :: PlaceOf(q) in PlacesOf(rest);
        var m := ToMake(rest, there + {PlaceOf(r)});
        forall q | q in m ensures PlaceOf(q) in PlacesOf([r] + m) { assert q in [r] + m; }
        assert r in [r] + m;
      }
    }
  }

  predicate Distinct(records: seq<Record>) {
    forall i, j | 0 <= i < j < |records| :: PlaceOf(records[i]) != PlaceOf(records[j])
  }

  lemma {:induction false} ToMakeIsDistinct(records: seq<Record>, there: set<Place>)
    ensures Distinct(ToMake(records, there))
    decreases |records|
  {
    if records != [] {
      var r, rest := records[0], records[1..];
      if PlaceOf(r) in there {
        ToMakeIsDistinct(rest, there);
      } else {
        var now := there + {PlaceOf(r)};
        ToMakeIsDistinct(rest, now);
        ToMakeIsComplete(rest, now);
        var m := ToMake(rest, now);
        assert forall j | 0 < j < |m| + 1 :: ([r] + m)[j] == m[j - 1] && m[j - 1] in m;
      }
    }
  }

  // The tree with the nodes and the directories on the way to them.
  function Built(fs: Fs, base: Place, made: seq<Record>): Fs
    decreases |made|
  {
    if made == [] then fs else Built(WithDevice(fs, base, PlaceOf(made[0])), base, made[1..])
  }

  function HeadsOf(records: seq<Record>): set<string> {
    set r | r in records :: PlaceOf(r)[0]
  }

  lemma HeadsMore(r: Record, more: seq<Record>)
    ensures HeadsOf([r] + more) == HeadsOf(more) + {PlaceOf(r)[0]}
  {
    var all := [r] + more;
    assert all[0] == r && forall q | q in all :: q == r || q in more;
    forall q | q in more ensures PlaceOf(q)[0] in HeadsOf(all) { assert q in all; }
    assert r in all;
  }

  // What is left in errno: if something was made, whether the last node lies in no directory that was
  // there or was made for an earlier one.
  predicate ErrnoAfter(fs: Fs, base: Place, made: seq<Record>, errno: bool) {
    if made == [] then errno else
    var at := PlaceOf(made[|made| - 1]);
    FirstIsNew(fs, base, at) && (|at| == 1 || at[0] !in HeadsOf(made[..|made| - 1]))
  }

  lemma DeviceAdds(fs: Fs, base: Place, r: Record)
    requires WellFormed(fs) && IsFolder(fs, base) && Open(fs, base, PlaceOf(r)) && Supported(r.typ)
             && base + PlaceOf(r) !in fs
    ensures var at := PlaceOf(r); var gs := WithDevice(fs, base, at);
            && Adds(fs, gs) && gs[base + at] == File
            && (forall p | p in gs && p !in fs :: p == base + at || (gs[p] == DIRECTORY && p <= base + Parent(at)))
            && (forall k: nat | k <= |at| :: base + at[..k] in gs)
  {
    var at := PlaceOf(r);
    var d, last := base + Parent(at), at[|at| - 1];
    MakeDeviceOpen(fs, base, r, true);
    MakeDeviceAdds(fs, base, r, true);
    WithAllAddsAncestors(fs, d, DIRECTORY);
    NewNodeIsMissing(fs, base, at);
    var hs := WithAll(fs, d, DIRECTORY);
    assert at[..|at|] == at;
    forall k: nat | k < |at| ensures base + at[..k] in hs { assert base + at[..k] == d[..|base| + k]; }
  }

  // A device that is made neither stands in the way of the others nor is one of them.
  lemma OthersStayOpen(fs: Fs, base: Place, r: Record, at: Place)
    requires WellFormed(fs) && IsFolder(fs, base) && Open(fs, base, PlaceOf(r)) && Supported(r.typ)
             && base + PlaceOf(r) !in fs
    requires Open(fs, base, at) && !(PlaceOf(r) < at) && !(at < PlaceOf(r))
    ensures var gs := WithDevice(fs, base, PlaceOf(r));
            && Open(gs, base, at) && (base + at in gs <==> base + at in fs || at == PlaceOf(r))
  {
    var d := PlaceOf(r);
    var gs := WithDevice(fs, base, d);
    DeviceAdds(fs, base, r);
    forall k | 0 < k < |at| && base + at[..k] in gs ensures IsFolder(gs, base + at[..k]) {
      if base + at[..k] == base + d { SamePlace(base, at[..k], d); }
    }
    if base + at in gs && base + at !in fs && base + at != base + d { SameFront(base, at, Parent(d)); }
    if base + at == base + d { SamePlace(base, at, d); }
    assert d[..|d|] == d;
  }

  lemma SamePlace(base: Place, a: Place, b: Place)
    requires base + a == base + b
    ensures a == b
  {
    assert a == (base + a)[|base|..] && b == (base + b)[|base|..];
  }

  lemma SameFront(base: Place, a: Place, b: Place)
    requires base + a <= base + b
    ensures a <= b
  {
    assert (base + b)[..|base + a|] == base + b[..|a|];
    SamePlace(base, a, b[..|a|]);
  }

  lemma FirstDirAfter(fs: Fs, base: Place, r: Record, at: Place)
    requires WellFormed(fs) && IsFolder(fs, base) && Open(fs, base, PlaceOf(r)) && Supported(r.typ)
             && base + PlaceOf(r) !in fs
    requires at != []
    ensures base + [at[0]] in WithDevice(fs, base, PlaceOf(r)) <==> base + [at[0]] in fs || PlaceOf(r)[0] == at[0]
  {
    var d, one := PlaceOf(r), [at[0]];
    var gs := WithDevice(fs, base, d);
    DeviceAdds(fs, base, r);
    assert d[..1] == [d[0]];
    if base + one in gs && base + one !in fs {
      if base + one == base + d { SamePlace(base, one, d); } else { SameFront(base, one, Parent(d)); }
    }
  }

  lemma RestMakeable(fs: Fs, base: Place, records: seq<Record>, there: set<Place>)
    requires WellFormed(fs) && IsFolder(fs, base) && records != [] && Makeable(fs, base, records)
    requires forall r | r in records :: PlaceOf(r) in there <==> base + PlaceOf(r) in fs
    requires base + PlaceOf(records[0]) !in fs
    ensures var at := PlaceOf(records[0]); var gs := WithDevice(fs, base, at);
            && Adds(fs, gs) && Makeable(gs, base, records[1..])
            && forall r | r in records[1..] :: PlaceOf(r) in there + {at} <==> base + PlaceOf(r) in gs
  {
    var r, rest := records[0], records[1..];
    DeviceAdds(fs, base, r);
    forall q | q in rest
      ensures Supported(q.typ) && Open(WithDevice(fs, base, PlaceOf(r)), base, PlaceOf(q))
      ensures PlaceOf(q) in there + {PlaceOf(r)} <==> base + PlaceOf(q) in WithDevice(fs, base, PlaceOf(r))
    {
      assert q in records && r in records;
      OthersStayOpen(fs, base, r, PlaceOf(q));
    }
  }

  lemma ErrnoOn(fs: Fs, base: Place, r: Record, more: seq<Record>, errno: bool)
    requires WellFormed(fs) && IsFolder(fs, base) && Open(fs, base, PlaceOf(r)) && Supported(r.typ)
             && base + PlaceOf(r) !in fs
    ensures ErrnoAfter(fs, base, [r] + more, errno) ==
            ErrnoAfter(WithDevice(fs, base, PlaceOf(r)), base, more, FirstIsNew(fs, base, PlaceOf(r)))
  {
    var all := [r] + more;
    if more == [] {
      assert HeadsOf(all[..0]) == {};
    } else {
      var before := more[..|more| - 1];
      assert all[|all| - 1] == more[|more| - 1] && all[..|all| - 1] == [r] + before;
      HeadsMore(r, before);
      FirstDirAfter(fs, base, r, PlaceOf(more[|more| - 1]));
    }
  }

  lemma ProcessNext(records: seq<Record>, fs: Fs, base: Place, errno: bool)
    requires records != [] && WellFormed(fs) && IsFolder(fs, base)
    requires Open(fs, base, PlaceOf(records[0])) && Supported(records[0].typ)
    ensures var r, rest := records[0], records[1..]; var at := PlaceOf(r);
            Process(records, fs, base, errno) ==
            if base + at in fs then Process(rest, fs, base, errno)
            else Resumed(Outcome(fs, [r], true, errno),
                Process(rest, WithDevice(fs, base, at), base, FirstIsNew(fs, base, at)))
  {
    MakeDeviceOpen(fs, base, records[0], errno);
    ResumedNothing(Process(records[1..], fs, base, errno));
  }

  // Exactly the missing nodes are made, each once and in the order of the file, with the directories on
  // the way to them; then every device is there.
  lemma {:induction false} MakesTheMissing(records: seq<Record>, fs: Fs, base: Place, errno: bool, there: set<Place>)
    requires WellFormed(fs) && IsFolder(fs, base) && Makeable(fs, base, records)
    requires forall r | r in records :: PlaceOf(r) in there <==> base + PlaceOf(r) in fs
    ensures var o := Process(records, fs, base, errno);
            && o.done && o.made == ToMake(records, there) && o.fs == Built(fs, base, o.made) && Adds(fs, o.fs)
            && o.errno == ErrnoAfter(fs, base, o.made, errno)
            && forall r | r in records :: base + PlaceOf(r) in o.fs
    decreases |records|
  {
    if records != [] {
      var r, rest := records[0], records[1..];
      var at := PlaceOf(r);
      assert r in records;
      assert forall q | q in records :: q == r || q in rest;
      ProcessNext(records, fs, base, errno);
      if base + at in fs {
        assert Makeable(fs, base, rest);
        MakesTheMissing(rest, fs, base, errno, there);
      } else {
        var gs, e := WithDevice(fs, base, at), FirstIsNew(fs, base, at);
        RestMakeable(fs, base, records, there);
        DeviceAdds(fs, base, r);
        MakesTheMissing(rest, gs, base, e, there + {at});
        var more := ToMake(rest, there + {at});
        assert ([r] + more)[1..] == more;
        ErrnoOn(fs, base, r, more, errno);
      }
    }
  }

  // So for a printed file of makeable devices the hook succeeds exactly if nothing was missing or the
  // last node it made lies in a directory that was there, or was made for an earlier node.
  lemma SucceedsExactly(records: seq<Record>, fs: Fs, base: Place, there: set<Place>)
    requires WellFormed(fs) && IsFolder(fs, base) && Makeable(fs, base, records)
    requires forall i | 0 <= i < |records| :: Scannable(records[i])
    requires forall r | r in records :: PlaceOf(r) in there <==> base + PlaceOf(r) in fs
    ensures var o := Hook(PrintAll(records), fs, base, false);
            && o.done && o.made == ToMake(records, there) && o.fs == Built(fs, base, o.made)
            && (forall r | r in records :: base + PlaceOf(r) in o.fs)
            && (o.errno <==> o.made != [] &&
                             var at := PlaceOf(o.made[|o.made| - 1]);
                             |at| == 1 || (base + [at[0]] !in fs && at[0] !in HeadsOf(o.made[..|o.made| - 1])))
  {
    PrintedIsProcessed(records, fs, base, false);
    MakesTheMissing(records, fs, base, false, there);
  }
}
