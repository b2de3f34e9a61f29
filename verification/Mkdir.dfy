/**
  mkdirAll: a recursive mkdir that finds the parent by scanning the bytes of the path.

  `MakeAll` says what it does in terms of path components. `Spot` says, without reference to any
  order of calls, where the path is or will be. The directories made are exactly the missing ones on
  the way there, unless the path makes a detour: a ".." right after a part that is missing.
 */
module Mkdir {
  import opened Options
  import opened Paths
  import opened HostFs

  // Without final slashes.
  function Trim(parts: seq<string>): seq<string> {
    if parts != [] && parts[|parts| - 1] == "" then Trim(parts[..|parts| - 1]) else parts
  }

  lemma {:induction false} Trimmed(parts: seq<string>)
    ensures var t := Trim(parts);
            && |t| <= |parts| && t == parts[..|t|] && AllEmpty(parts[|t|..]) && (t != [] ==> t[|t| - 1] != "")
  {
    if parts != [] && parts[|parts| - 1] == "" {
      var init := parts[..|parts| - 1];
      Trimmed(init);
      assert parts[|Trim(init)|..] == init[|Trim(init)|..] + [""];
      EmptyConcat(init[|Trim(init)|..], [""]);
    }
  }

  // mkdir itself, and the second look at a path that mkdir refuses.
  function MakeOne(fs: Fs, at: Place, parts: seq<string>, node: Node): (Fs, bool) {
    match Walk(fs, at, Trim(parts), false, MAX_LINKS)
    case Missing(q, _) => (fs[q := node], true)
    case _ => var r := Walk(fs, at, parts, false, MAX_LINKS); (fs, r.Found? && IsFolder(fs, r.at))
  }

  function MakeAll(fs: Fs, at: Place, parts: seq<string>, node: Node): (Fs, bool)
    decreases |parts|
  {
    var r := Walk(fs, at, parts, true, MAX_LINKS);
    if r.Found? then (fs, IsFolder(fs, r.at)) else
    Trimmed(parts);
    var t := Trim(parts);
    if t == [] then (fs, false) else
    var (gs, ok) := MakeAll(fs, at, t[..|t| - 1], node);
    if ok then MakeOne(gs, at, parts, node) else (gs, false)
  }

  // ---------------------------------------------------------------- what every call keeps

  ghost predicate GrowsBy(fs: Fs, gs: Fs, node: Node) {
    && Extends(fs, gs) && WellFormed(gs)
    && forall q | q in gs && q !in fs :: gs[q] == node
  }

  lemma MakeOneGrows(fs: Fs, at: Place, parts: seq<string>, node: Node)
    requires WellFormed(fs) && at in fs && node.Folder? && AreParts(parts)
    ensures GrowsBy(fs, MakeOne(fs, at, parts, node).0, node)
  {
    Trimmed(parts);
    var r := Walk(fs, at, Trim(parts), false, MAX_LINKS);
    if r.Missing? {
      MissingIsFree(fs, at, Trim(parts), false, MAX_LINKS);
      PutKeepsForm(fs, r.at, node);
    }
  }

  // Nothing that was there goes or changes, and all that is new is a directory with the given mode
  // and owner.
  lemma {:induction false} MakeAllGrows(fs: Fs, at: Place, parts: seq<string>, node: Node)
    requires WellFormed(fs) && at in fs && node.Folder? && AreParts(parts)
    ensures GrowsBy(fs, MakeAll(fs, at, parts, node).0, node)
    decreases |parts|
  {
    Trimmed(parts);
    var t := Trim(parts);
    if !Walk(fs, at, parts, true, MAX_LINKS).Found? && t != [] {
      MakeAllGrows(fs, at, t[..|t| - 1], node);
      MakeOneGrows(MakeAll(fs, at, t[..|t| - 1], node).0, at, parts, node);
    }
  }

  // A directory made at the missing place is what stat finds, whatever slashes follow.
  lemma NewIsFound(fs: Fs, at: Place, parts: seq<string>, node: Node)
    requires node.Folder? && Walk(fs, at, Trim(parts), false, MAX_LINKS).Missing?
    ensures var q := Walk(fs, at, Trim(parts), false, MAX_LINKS).at;
            var r := Walk(fs[q := node], at, parts, true, MAX_LINKS); r.Found? && r.at == q
  {
    Trimmed(parts);
    var t := Trim(parts);
    FollowAgrees(fs, at, t, MAX_LINKS);
    WalkFindsNew(fs, node, at, t, true, MAX_LINKS);
    var gs := fs[Walk(fs, at, t, true, MAX_LINKS).at := node];
    var rest := parts[|t|..];
    assert parts == t + rest;
    if rest != [] {
      WalkOn(gs, at, t, rest, true, MAX_LINKS);
      var r := Walk(gs, at, t, true, MAX_LINKS);
      WalkSlashes(gs, r.at, rest, true, r.left);
    } else {
      assert parts == t;
    }
  }

  // On success the path is a directory.
  lemma MakeAllMakes(fs: Fs, at: Place, parts: seq<string>, node: Node)
    requires node.Folder? && MakeAll(fs, at, parts, node).1
    ensures var gs := MakeAll(fs, at, parts, node).0;
            var r := Walk(gs, at, parts, true, MAX_LINKS); r.Found? && IsFolder(gs, r.at)
  {
    var r := Walk(fs, at, parts, true, MAX_LINKS);
    if !r.Found? {
      var t := Trim(parts);
      Trimmed(parts);
      var gs := MakeAll(fs, at, t[..|t| - 1], node).0;
      if Walk(gs, at, t, false, MAX_LINKS).Missing? { NewIsFound(gs, at, parts, node); }
      else { FollowAgrees(gs, at, parts, MAX_LINKS); }
    }
  }

  // ---------------------------------------------------------------- where the path is or will be

  // None: some part of the path is neither a directory nor free, or goes up from what is not there.
  function Spot(fs: Fs, at: Place, parts: seq<string>): Option<Place>
    decreases |parts|
  {
    var r := Walk(fs, at, parts, true, MAX_LINKS);
    if r.Found? then (if IsFolder(fs, r.at) then Some(r.at) else None) else
    Trimmed(parts);
    var t := Trim(parts);
    if t == [] || t[|t| - 1] == ".." then None else
    var last := t[|t| - 1];
    match Spot(fs, at, t[..|t| - 1])
    case None => None
    case Some(d) => if last == "." then Some(d) else if d + [last] in fs then None else Some(d + [last])
  }

  // fs with all missing directories down to q.
  function WithAll(fs: Fs, q: Place, node: Node): Fs
    decreases |q|
  {
    if q in fs || q == [] then fs else WithAll(fs, q[..|q| - 1], node)[q := node]
  }

  lemma {:induction false} AncestorsThere(fs: Fs, q: Place, k: nat)
    requires WellFormed(fs) && q in fs && k <= |q|
    ensures q[..k] in fs
    decreases |q|
  {
    if k < |q| {
      assert q[..|q| - 1][..k] == q[..k];
      assert Rooted(fs, q);
      AncestorsThere(fs, q[..|q| - 1], k);
    } else {
      assert q[..k] == q;
    }
  }

  // It adds exactly the missing ones among q and its ancestors.
  lemma {:induction false} WithAllAddsAncestors(fs: Fs, q: Place, node: Node)
    requires WellFormed(fs)
    ensures var gs := WithAll(fs, q, node);
            && Extends(fs, gs) && q in gs
            && (forall p | p in gs && p !in fs :: gs[p] == node && p <= q)
            && (forall k: nat | k <= |q| :: q[..k] in gs)
    decreases |q|
  {
    if q in fs || q == [] {
      forall k: nat | k <= |q| ensures q[..k] in fs { AncestorsThere(fs, q, k); }
    } else {
      var p := q[..|q| - 1];
      WithAllAddsAncestors(fs, p, node);
      forall k: nat | k < |q| ensures q[..k] in WithAll(fs, p, node) { assert p[..k] == q[..k]; }
      assert q[..|q|] == q;
    }
  }

  lemma OneName(fs: Fs, d: Place, last: string, follow: bool, left: nat)
    requires IsFolder(fs, d) && last != "" && last != ".." && (follow && last != "." ==> !IsLink(fs, d + [last]))
    ensures Walk(fs, d, [last], follow, left) ==
            if last == "." then Found(d, left) else if d + [last] in fs then Found(d + [last], left)
                else Missing(d + [last], false)
  {
    assert [last][1..] == [];
    assert Walk(fs, d, [], follow, left) == Found(d, left)
        && Walk(fs, d + [last], [], follow, left) == Found(d + [last], left);
  }

  // The last name of a path, looked up in the directory the rest denotes.
  lemma LastName(fs: Fs, at: Place, t: seq<string>, d: Place, left: nat)
    requires t != [] && t[|t| - 1] != "" && t[|t| - 1] != ".."
    requires Walk(fs, at, t[..|t| - 1], true, MAX_LINKS) == Found(d, left) && IsFolder(fs, d)
    ensures var last := t[|t| - 1]; var r := Walk(fs, at, t, false, MAX_LINKS);
            if last == "." then r == Found(d, left)
            else if d + [last] in fs then r == Found(d + [last], left)
            else r == Missing(d + [last], false)
  {
    assert t == t[..|t| - 1] + [t[|t| - 1]];
    WalkOn(fs, at, t[..|t| - 1], [t[|t| - 1]], false, MAX_LINKS);
    OneName(fs, d, t[|t| - 1], false, left);
  }

  // The second look fails where stat failed, unless the path ends in a directory.
  lemma LastLook(fs: Fs, at: Place, parts: seq<string>)
    requires !Walk(fs, at, parts, true, MAX_LINKS).Found?
    ensures var r := Walk(fs, at, parts, false, MAX_LINKS); r.Found? ==> !IsFolder(fs, r.at)
  {
    FollowAgrees(fs, at, parts, MAX_LINKS);
  }

  lemma WithAllStep(fs: Fs, d: Place, last: string, node: Node)
    requires WellFormed(fs) && d + [last] !in fs
    ensures d + [last] !in WithAll(fs, d, node)
    ensures WithAll(fs, d + [last], node) == WithAll(fs, d, node)[d + [last] := node]
  {
    var q := d + [last];
    assert q[..|q| - 1] == d;
    WithAllAddsAncestors(fs, d, node);
  }

  // A place that is in the tree has nothing missing; one that is not has nothing below it.
  lemma SpotIsFree(fs: Fs, d: Place, last: string)
    requires WellFormed(fs) && d + [last] in fs
    ensures d in fs
  {
    var q := d + [last];
    assert Rooted(fs, q) && q[..|q| - 1] == d;
  }

  // What mkdirAll should do: if there is a spot for the path, make the missing directories on the way
  // to it and succeed, otherwise make nothing and fail.
  function Ideal(fs: Fs, at: Place, parts: seq<string>, node: Node): (Fs, bool) {
    match Spot(fs, at, parts) case None => (fs, false) case Some(q) => (WithAll(fs, q, node), true)
  }

  ghost predicate LeadsTo(fs: Fs, at: Place, parts: seq<string>, q: Place) {
    var r := Walk(fs, at, parts, true, MAX_LINKS); r.Found? && r.at == q && IsFolder(fs, q)
  }

  // A ".." right after a part that is missing and can be made.
  predicate Detour(fs: Fs, at: Place, parts: seq<string>, i: nat) {
    && i < |parts| && parts[i] == ".."
    && !Walk(fs, at, parts[..i], true, MAX_LINKS).Found? && Spot(fs, at, parts[..i]).Some?
  }

  predicate NoDetour(fs: Fs, at: Place, parts: seq<string>) {
    forall i: nat | i < |parts| :: !Detour(fs, at, parts, i)
  }

  lemma PrefixNoDetour(fs: Fs, at: Place, parts: seq<string>, k: nat)
    requires k <= |parts| && NoDetour(fs, at, parts)
    ensures NoDetour(fs, at, parts[..k])
  {
    forall i: nat | i < k ensures !Detour(fs, at, parts[..k], i) {
      assert parts[..k][..i] == parts[..i] && !Detour(fs, at, parts, i);
    }
  }

  // Without a detour mkdirAll does what it should, and the path leads to the spot then.
  lemma {:induction false} WithoutDetour(fs: Fs, at: Place, parts: seq<string>, node: Node)
    requires WellFormed(fs) && IsFolder(fs, at) && node.Folder? && AreParts(parts) && NoDetour(fs, at, parts)
    ensures MakeAll(fs, at, parts, node) == Ideal(fs, at, parts, node)
    ensures Spot(fs, at, parts).Some? ==> LeadsTo(Ideal(fs, at, parts, node).0, at, parts, Spot(fs, at, parts).value)
    decreases |parts|
  {
    var r := Walk(fs, at, parts, true, MAX_LINKS);
    if r.Found? {
      FoundIsThere(fs, at, parts, true, MAX_LINKS);
    } else {
      Trimmed(parts);
      var t := Trim(parts);
      if t != [] {
        assert t[..|t| - 1] == parts[..|t| - 1];
        PrefixNoDetour(fs, at, parts, |t| - 1);
        WithoutDetour(fs, at, t[..|t| - 1], node);
        if Spot(fs, at, t[..|t| - 1]).Some? {
          if t[|t| - 1] == ".." { UpIsFound(fs, at, parts); } else { ExactLast(fs, at, parts, node); }
        }
      }
    }
  }

  // Going up from a directory that is there is no detour, and leads to a directory that is there.
  lemma UpIsFound(fs: Fs, at: Place, parts: seq<string>)
    requires WellFormed(fs) && IsFolder(fs, at) && AreParts(parts) && NoDetour(fs, at, parts)
    requires var t := Trim(parts); t != [] && t[|t| - 1] == ".." && Spot(fs, at, t[..|t| - 1]).Some?
    ensures Walk(fs, at, parts, true, MAX_LINKS).Found?
  {
    Trimmed(parts);
    var t := Trim(parts);
    var init, rest := t[..|t| - 1], parts[|t|..];
    assert init == parts[..|init|] && parts == init + ([".."] + rest);
    assert !Detour(fs, at, parts, |init|);
    var r := Walk(fs, at, init, true, MAX_LINKS);
    assert r.Found? && IsFolder(fs, r.at);
    WalkOn(fs, at, init, [".."] + rest, true, MAX_LINKS);
    assert ([".."] + rest)[1..] == rest;
    assert Rooted(fs, r.at);
    WalkSlashes(fs, Above(r.at), rest, true, r.left);
  }

  lemma ExactLast(fs: Fs, at: Place, parts: seq<string>, node: Node)
    requires WellFormed(fs) && IsFolder(fs, at) && node.Folder? && AreParts(parts)
    requires !Walk(fs, at, parts, true, MAX_LINKS).Found? && Trim(parts) != []
    requires var t := Trim(parts); var init := t[..|t| - 1];
             && t[|t| - 1] != ".." && Spot(fs, at, init).Some?
             && MakeAll(fs, at, init, node) == Ideal(fs, at, init, node)
             && LeadsTo(Ideal(fs, at, init, node).0, at, init, Spot(fs, at, init).value)
    ensures MakeAll(fs, at, parts, node) == Ideal(fs, at, parts, node)
    ensures Spot(fs, at, parts).Some? ==> LeadsTo(Ideal(fs, at, parts, node).0, at, parts, Spot(fs, at, parts).value)
  {
    Trimmed(parts);
    var t := Trim(parts);
    var last := t[|t| - 1];
    var q := Spot(fs, at, t[..|t| - 1]).value;
    var gs := WithAll(fs, q, node);
    LastName(gs, at, t, q, Walk(gs, at, t[..|t| - 1], true, MAX_LINKS).left);
    if last == "." {
      DotLast(gs, at, parts, q);
    } else if q + [last] in fs {
      SpotIsFree(fs, q, last);
      assert gs == fs;
      LastLook(fs, at, parts);
    } else {
      WithAllStep(fs, q, last, node);
      NewIsFound(gs, at, parts, node);
    }
  }

  lemma DotLast(fs: Fs, at: Place, parts: seq<string>, q: Place)
    requires IsFolder(fs, q)
    requires var r := Walk(fs, at, Trim(parts), false, MAX_LINKS); r.Found? && r.at == q
    ensures forall follow :: var r := Walk(fs, at, parts, follow, MAX_LINKS); r.Found? && r.at == q
  {
    Trimmed(parts);
    var t := Trim(parts);
    var rest := parts[|t|..];
    assert parts == t + rest;
    FollowAgrees(fs, at, t, MAX_LINKS);
    forall follow ensures var r := Walk(fs, at, parts, follow, MAX_LINKS); r.Found? && r.at == q {
      if rest != [] {
        WalkOn(fs, at, t, rest, follow, MAX_LINKS);
        WalkSlashes(fs, q, rest, follow, Walk(fs, at, t, true, MAX_LINKS).left);
      } else {
        assert parts == t;
      }
    }
  }

  // ---------------------------------------------------------------- with a detour

  // Past a ".." below what is not there nothing is found and there is no spot.
  lemma {:induction false} NoSpotPastDetour(fs: Fs, at: Place, parts: seq<string>, i: nat)
    requires i < |parts| && parts[i] == ".." && !Walk(fs, at, parts[..i], true, MAX_LINKS).Found?
    ensures !Walk(fs, at, parts, true, MAX_LINKS).Found? && Spot(fs, at, parts).None?
    decreases |parts|
  {
    assert parts == parts[..i] + parts[i..];
    WalkOn(fs, at, parts[..i], parts[i..], true, MAX_LINKS);
    Trimmed(parts);
    var t := Trim(parts);
    if i < |t| - 1 {
      assert t[..|t| - 1][..i] == parts[..i];
      NoSpotPastDetour(fs, at, t[..|t| - 1], i);
    }
  }

  // What is made for a path's first parts stays when the whole path is made.
  lemma {:induction false} PrefixIsMade(fs: Fs, at: Place, parts: seq<string>, i: nat, node: Node)
    requires WellFormed(fs) && at in fs && node.Folder? && AreParts(parts)
    requires i < |parts| && parts[i] != "" && !Walk(fs, at, parts[..i], true, MAX_LINKS).Found?
    ensures Extends(MakeAll(fs, at, parts[..i], node).0, MakeAll(fs, at, parts, node).0)
    decreases |parts|
  {
    assert parts == parts[..i] + parts[i..];
    WalkOn(fs, at, parts[..i], parts[i..], true, MAX_LINKS);
    Trimmed(parts);
    var t := Trim(parts);
    var init := t[..|t| - 1];
    assert init[..i] == parts[..i];
    if i < |init| { PrefixIsMade(fs, at, init, i, node); } else { assert init == parts[..i]; }
    MakeAllGrows(fs, at, init, node);
    MakeOneGrows(MakeAll(fs, at, init, node).0, at, parts, node);
  }

  // On a detour the directory in front of the ".." is made, whether the call succeeds or not.
  lemma DetourLeavesDirectory(fs: Fs, at: Place, parts: seq<string>, i: nat, node: Node)
    requires WellFormed(fs) && IsFolder(fs, at) && node.Folder? && AreParts(parts) && Detour(fs, at, parts, i)
    ensures var q := Spot(fs, at, parts[..i]).value;
            q !in fs && Extends(WithAll(fs, q, node), MakeAll(fs, at, parts, node).0)
    ensures Spot(fs, at, parts).None?
  {
    var init := parts[..i];
    forall j: nat | j < i ensures !Detour(fs, at, init, j) {
      if Detour(fs, at, init, j) { NoSpotPastDetour(fs, at, init, j); }
    }
    WithoutDetour(fs, at, init, node);
    PrefixIsMade(fs, at, parts, i, node);
    NoSpotPastDetour(fs, at, parts, i);
  }

  // mkdirAll does what it should exactly if the path makes no detour.
  lemma MakeAllExactly(fs: Fs, at: Place, parts: seq<string>, node: Node)
    requires WellFormed(fs) && IsFolder(fs, at) && node.Folder? && AreParts(parts)
    ensures MakeAll(fs, at, parts, node) == Ideal(fs, at, parts, node) <==> NoDetour(fs, at, parts)
    ensures NoDetour(fs, at, parts) && Spot(fs, at, parts).Some? ==>
              LeadsTo(Ideal(fs, at, parts, node).0, at, parts, Spot(fs, at, parts).value)
  {
    if NoDetour(fs, at, parts) {
      WithoutDetour(fs, at, parts, node);
    } else {
      var i: nat :| i < |parts| && Detour(fs, at, parts, i);
      DetourLeavesDirectory(fs, at, parts, i, node);
      var q := Spot(fs, at, parts[..i]).value;
      WithAllAddsAncestors(fs, q, node);
      assert q in MakeAll(fs, at, parts, node).0;
    }
  }

  // A detour that ends well leaves a directory that is no ancestor of the place unless the path goes
  // back through it; a detour that fails leaves one all the same.
  lemma DetourIsNotUndone(fs: Fs, at: Place, parts: seq<string>, i: nat, node: Node, p: Place)
    requires WellFormed(fs) && IsFolder(fs, at) && node.Folder? && AreParts(parts) && Detour(fs, at, parts, i)
    ensures MakeAll(fs, at, parts, node).0 != fs
    ensures MakeAll(fs, at, parts, node).0 == WithAll(fs, p, node) ==> Spot(fs, at, parts[..i]).value <= p
  {
    DetourLeavesDirectory(fs, at, parts, i, node);
    var q := Spot(fs, at, parts[..i]).value;
    WithAllAddsAncestors(fs, q, node);
    WithAllAddsAncestors(fs, p, node);
    assert q in MakeAll(fs, at, parts, node).0;
  }

  lemma WalkUp(fs: Fs, at: Place, a: string, rest: seq<string>, follow: bool, budget: nat)
    requires IsFolder(fs, at) && IsFolder(fs, at + [a]) && IsName(a)
    ensures Walk(fs, at, [a] + ([".."] + rest), follow, budget) == Walk(fs, at, rest, follow, budget)
  {
    assert ([a] + ([".."] + rest))[1..] == [".."] + rest && ([".."] + rest)[1..] == rest;
    assert Above(at + [a]) == at;
  }

  lemma LostBelowMissing(fs: Fs, at: Place, a: string, rest: seq<string>, follow: bool, budget: nat)
    requires IsFolder(fs, at) && at + [a] !in fs && IsName(a)
    ensures Walk(fs, at, [a] + ([".."] + rest), follow, budget) == Lost
  {
    assert ([a] + ([".."] + rest))[1..] == [".."] + rest && ([".."] + rest)[0] == "..";
  }

  lemma MakesOneName(fs: Fs, at: Place, a: string, node: Node)
    requires IsFolder(fs, at) && at + [a] !in fs && IsName(a)
    ensures MakeAll(fs, at, [a], node) == (fs[at + [a] := node], true)
  {
    OneName(fs, at, a, true, MAX_LINKS);
    OneName(fs, at, a, false, MAX_LINKS);
    assert [a][..0] == [] && Trim([a]) == [a];
    assert MakeAll(fs, at, [], node) == (fs, true);
  }

  lemma MakesUp(fs: Fs, at: Place, a: string, node: Node)
    requires IsFolder(fs, at) && at + [a] !in fs && IsName(a) && node.Folder?
    ensures MakeAll(fs, at, [a] + ([".."] + []), node) == (fs[at + [a] := node], true)
  {
    var gs, up := fs[at + [a] := node], [a] + ([".."] + []);
    MakesOneName(fs, at, a, node);
    LostBelowMissing(fs, at, a, [], true, MAX_LINKS);
    WalkUp(gs, at, a, [], false, MAX_LINKS);
    assert up[..1] == [a] && up[|up| - 1] == ".." && Trim(up) == up;
  }

  // The shortest detour: for "a/../b" the directory a is made and stays, whether b is then made or
  // turns out to be a file.
  lemma ShortDetour(fs: Fs, at: Place, a: string, b: string, node: Node)
    requires IsFolder(fs, at) && at + [a] !in fs && IsName(a) && IsName(b) && node.Folder? && a != b
    requires at + [b] in fs ==> fs[at + [b]].File?
    ensures MakeAll(fs, at, [a] + ([".."] + [b]), node) ==
            if at + [b] in fs then (fs[at + [a] := node], false) else (fs[at + [a] := node][at + [b] := node], true)
  {
    var gs := fs[at + [a] := node];
    var up, path := [a] + ([".."] + []), [a] + ([".."] + [b]);
    MakesUp(fs, at, a, node);
    LostBelowMissing(fs, at, a, [b], true, MAX_LINKS);
    WalkUp(gs, at, a, [b], false, MAX_LINKS);
    assert at + [a] != at + [b] by { assert (at + [a])[|at|] == a && (at + [b])[|at|] == b; }
    OneName(gs, at, b, false, MAX_LINKS);
    assert path[..2] == up && path[|path| - 1] == b && Trim(path) == path;
  }
}
