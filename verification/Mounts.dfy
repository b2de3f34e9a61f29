/**
  The mounts of a container: one configuration line per mount, with a destination below the root
  that is made beforehand where it is missing.
 */
module Mounts {
  import opened Options
  import opened Paths
  import opened HostFs
  import opened LxcConfig
  import opened Mkdir
  import opened Host
  import opened Resolve
  import opened Specification
  import opened Destinations

  datatype Mount = Mount(destination: string, typ: string, source: string, options: seq<string>)

  const DIR_MODE: int := 488 // 0750

  // ---------------------------------------------------------------- what is done for one mount

  // A cgroup mount is always a cgroup2 mount.
  function Unified(m: Mount): Mount {
    if m.typ == "cgroup" then m.(typ := "cgroup2", source := "cgroup2") else m
  }

  // The source is there and is no directory: a file is bind mounted onto a file.
  predicate OntoFile(fs: Fs, cwd: Place, source: string) {
    Stat(fs, cwd, source).Some? && !IsDir(Stat(fs, cwd, source))
  }

  function CreateOption(file: bool): string {
    if file then "create=file" else "create=dir"
  }

  function Line(m: Mount, dest: string, file: bool): string {
    m.source + " " + dest + " " + m.typ + " " + Between(m.options + [CreateOption(file)], ",")
  }

  // createMountDestination: the tree after it, and whether it succeeds.
  function Prepared(fs: Fs, cwd: Place, m: Mount, dest: string, user: User): (Fs, bool) {
    var folder := Folder(DIR_MODE, user.uid, user.gid);
    if Stat(fs, cwd, m.source).None? && m.typ == "bind" then (fs, false)
    else if OntoFile(fs, cwd, m.source) then
      var (gs, ok) := MakePath(fs, cwd, Dir(dest), folder);
      if ok then Created(gs, cwd, dest) else (gs, false)
    else MakePath(fs, cwd, dest, folder)
  }

  // One mount: the tree after it, and its line unless it is refused.
  function MountOne(fs: Fs, cwd: Place, accepts: (string, string) -> bool, root: string,
        m: Mount, user: User): (Fs, Option<string>)
  {
    var dest := Destination(fs, cwd, root, m.destination).0;
    if !HasPrefix(dest, root) then (fs, None) else
    var (gs, made) := Prepared(fs, cwd, m, dest, user);
    var line := Line(m, dest, OntoFile(fs, cwd, m.source));
    (gs, if made && accepts("lxc.mount.entry", line) then Some(line) else None)
  }

  type Stepping = (Fs, Mount) -> (Fs, Option<string>)

  function Mounting(cwd: Place, accepts: (string, string) -> bool, root: string, user: User): Stepping {
    (fs, m) => MountOne(fs, cwd, accepts, root, Unified(m), user)
  }

  // The tree and the lines after all mounts, or up to the first that is refused.
  function MountAll(step: Stepping, fs: Fs, mounts: seq<Mount>): (Fs, seq<string>, bool)
    decreases |mounts|
  {
    if mounts == [] then (fs, [], true) else
    var (gs, line) := step(fs, mounts[0]);
    if line.None? then (gs, [], false) else
    var (hs, lines, ok) := MountAll(step, gs, mounts[1..]);
    (hs, [line.value] + lines, ok)
  }

  function Items(lines: seq<string>): seq<(string, string)> {
    seq(|lines|, i requires 0 <= i < |lines| => ("lxc.mount.entry", lines[i]))
  }

  // ---------------------------------------------------------------- the runtime

  class Runtime {
    const host: Host
    const config: Config

    constructor (host: Host, config: Config)
      ensures this.host == host && this.config == config
    {
      this.host, this.config := host, config;
    }

    method ResolveMountDestination(rootfs: string, dst: string) returns (path: string, ok: bool)
      ensures (path, ok) == Destination(host.fs, host.cwd, rootfs, dst)
    {
      var entries := Split(TrimSlash(dst));
      path, ok := rootfs, true;
      var i := 0;
      while i < |entries| && ok
        invariant i <= |entries|
        invariant Destination(host.fs, host.cwd, rootfs, dst) ==
                  if ok then ResolveFrom(host.fs, host.cwd, rootfs, path, entries[i..]) else (path, false)
        decreases |entries| - i
      {
        var r := ResolveEntry(host.fs, host.cwd, rootfs, path, entries[i]);
        path, ok := r.0, r.1;
        assert entries[i..][1..] == entries[i + 1..];
        if !ok { path := Join(path, JoinAll(entries[i + 1..])); }
        i := i + 1;
      }
    }

    method CreateMountDestination(m: Mount, dest: string, user: User) returns (ok: bool, options: seq<string>)
      requires host.Valid()
      modifies host`fs
      ensures host.Valid()
      ensures (host.fs, ok) == Prepared(old(host.fs), host.cwd, m, dest, user)
      ensures ok ==> options == m.options + [CreateOption(OntoFile(old(host.fs), host.cwd, m.source))]
    {
      options := m.options;
      var info := Stat(host.fs, host.cwd, m.source);
      if info.None? && m.typ == "bind" { return false, options; }
      if info.Some? && !IsDir(info) {
        options := options + ["create=file"];
        ok := host.MkdirAll(Dir(dest), DIR_MODE, user.uid, user.gid);
        if ok { ok := host.OpenCreate(dest); }
        return;
      }
      options := options + ["create=dir"];
      ok := host.MkdirAll(dest, DIR_MODE, user.uid, user.gid);
    }

    method ConfigureMount(root: string, mount: Mount, user: User) returns (ok: bool)
      requires host.Valid()
      modifies config`items, host`fs
      ensures host.Valid()
      ensures var (fs, line) := Mounting(host.cwd, config.accepts, root, user)(old(host.fs), mount);
              && host.fs == fs && ok == line.Some?
              && config.items == old(config.items) + if ok then [("lxc.mount.entry", line.value)] else []
    {
      var m := Unified(mount);
      var dest, _ := ResolveMountDestination(root, m.destination);
      if !HasPrefix(dest, root) { return false; }
      var options;
      ok, options := CreateMountDestination(m, dest, user);
      if !ok { return; }
      ok := config.SetConfigItem("lxc.mount.entry", m.source + " " + dest + " " + m.typ + " " + Between(options, ","));
    }

    method ConfigureMounts(root: string, mounts: seq<Mount>, user: User) returns (ok: bool)
      requires host.Valid()
      modifies config`items, host`fs
      ensures host.Valid()
      ensures !config.accepts("lxc.mount.auto", "") ==>
                !ok && config.items == old(config.items) && host.fs == old(host.fs)
      ensures config.accepts("lxc.mount.auto", "") ==>
                var (fs, lines, all) := MountAll(Mounting(host.cwd, config.accepts, root, user), old(host.fs), mounts);
                host.fs == fs && ok == all
                    && config.items == old(config.items) + [("lxc.mount.auto", "")] + Items(lines)
    {
      ok := config.SetConfigItem("lxc.mount.auto", "");
      if !ok { return; }
      ghost var lines;
      ok, lines := MountEach(root, mounts, user);
    }

    // The loop.
    method MountEach(root: string, mounts: seq<Mount>, user: User) returns (ok: bool, ghost lines: seq<string>)
      requires host.Valid()
      modifies config`items, host`fs
      ensures host.Valid()
      ensures MountAll(Mounting(host.cwd, config.accepts, root, user), old(host.fs), mounts) == (host.fs, lines, ok)
      ensures config.items == old(config.items) + Items(lines)
    {
      ghost var step := Mounting(host.cwd, config.accepts, root, user);
      lines := [];
      MountingStarts(step, host.fs, mounts);
      for i := 0 to |mounts|
        invariant host.Valid() && config.items == old(config.items) + Items(lines)
        invariant Mounted(step, old(host.fs), mounts, i, host.fs, lines)
      {
        ghost var line := step(host.fs, mounts[i]).1;
        MountingOn(step, old(host.fs), mounts, i, host.fs, lines);
        ok := ConfigureMount(root, mounts[i], user);
        if !ok { return; }
        ItemsSnoc(lines, line.value);
        lines := lines + [line.value];
      }
      MountingEnds(step, old(host.fs), mounts, host.fs, lines);
      ok := true;
    }
  }

  // The mounts before the i-th have led to tree gs and these lines.
  ghost predicate Mounted(step: Stepping, fs: Fs, mounts: seq<Mount>, i: nat, gs: Fs, lines: seq<string>) {
    i <= |mounts| && MountAll(step, fs, mounts) == Following(lines, MountAll(step, gs, mounts[i..]))
  }

  lemma MountingStarts(step: Stepping, fs: Fs, mounts: seq<Mount>)
    ensures Mounted(step, fs, mounts, 0, fs, [])
  {
    assert mounts[0..] == mounts;
    FollowingNothing(MountAll(step, fs, mounts));
  }

  lemma MountingOn(step: Stepping, fs: Fs, mounts: seq<Mount>, i: nat, gs: Fs, lines: seq<string>)
    requires Mounted(step, fs, mounts, i, gs, lines) && i < |mounts|
    ensures var (hs, line) := step(gs, mounts[i]);
            if line.Some? then Mounted(step, fs, mounts, i + 1, hs, lines + [line.value])
            else MountAll(step, fs, mounts) == (hs, lines, false)
  {
    var rest := mounts[i..];
    assert rest[0] == mounts[i] && rest[1..] == mounts[i + 1..];
    MountNext(step, gs, rest, lines);
    if step(gs, mounts[i]).1.None? { assert MountAll(step, fs, mounts) == (step(gs, rest[0]).0, lines, false); }
  }

  lemma MountingEnds(step: Stepping, fs: Fs, mounts: seq<Mount>, gs: Fs, lines: seq<string>)
    requires Mounted(step, fs, mounts, |mounts|, gs, lines)
    ensures MountAll(step, fs, mounts) == (gs, lines, true)
  {
    assert mounts[|mounts|..] == [] && MountAll(step, gs, []) == (gs, [], true);
    assert lines + [] == lines;
  }

  function Following(lines: seq<string>, r: (Fs, seq<string>, bool)): (Fs, seq<string>, bool) {
    (r.0, lines + r.1, r.2)
  }

  lemma FollowingNothing(r: (Fs, seq<string>, bool))
    ensures Following([], r) == r
  {
    assert [] + r.1 == r.1;
  }

  lemma ItemsSnoc(lines: seq<string>, line: string)
    ensures Items(lines + [line]) == Items(lines) + [("lxc.mount.entry", line)]
  {
  }

  lemma MountNext(step: Stepping, fs: Fs, mounts: seq<Mount>, lines: seq<string>)
    requires mounts != []
    ensures var (gs, line) := step(fs, mounts[0]);
            Following(lines, MountAll(step, fs, mounts)) ==
            if line.None? then (gs, lines, false) else Following(lines + [line.value], MountAll(step, gs, mounts[1..]))
  {
    var (gs, line) := step(fs, mounts[0]);
    if line.Some? {
      var rest := MountAll(step, gs, mounts[1..]).1;
      assert lines + ([line.value] + rest) == lines + [line.value] + rest;
    } else {
      assert lines + [] == lines;
    }
  }
}
