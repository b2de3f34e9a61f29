/**
  The host's file system tree, and how the kernel walks a path through it.

  Nodes are named by the list of components from the root; a path is looked up component by
  component, symbolic links are followed with the kernel's limit on their number.
 */
module HostFs {
  import opened Options
  import opened Paths

  type Place = seq<string>

  // A regular file stands for every node that is neither directory nor link.
  datatype Node = Folder(perm: int, uid: int, gid: int) | File | Link(target: string)

  type Fs = map<Place, Node>

  const MAX_LINKS: nat := 40

  predicate IsFolder(fs: Fs, at: Place) {
    at in fs && fs[at].Folder?
  }

  predicate IsLink(fs: Fs, at: Place) {
    at in fs && fs[at].Link?
  }

  // A proper name in a directory.
  predicate Rooted(fs: Fs, at: Place) {
    at == [] || (IsName(at[|at| - 1]) && IsFolder(fs, at[..|at| - 1]))
  }

  // The root is a directory, and every other node has a proper name in a directory.
  ghost predicate WellFormed(fs: Fs) {
    IsFolder(fs, []) && forall at {:trigger Rooted(fs, at)} :: at in fs ==> Rooted(fs, at)
  }

  // Making a node in a free place, or changing a directory's attributes, keeps the tree well formed.
  lemma PutKeepsForm(fs: Fs, q: Place, node: Node)
    requires WellFormed(fs) && Rooted(fs, q)
    requires q == [] || (q in fs && fs[q].Folder?) ==> node.Folder?
    ensures WellFormed(fs[q := node])
  {
    var gs := fs[q := node];
    forall at | at in gs ensures Rooted(gs, at) { assert Rooted(fs, at); }
  }

  // Found: the node, and how many more links could have been followed. Missing: the directory is
  // there but not the name, which is the last of the path (but for slashes).
  datatype Walked = Found(at: Place, left: nat) | Missing(at: Place, slash: bool) | Lost

  predicate AllEmpty(parts: seq<string>) {
    forall i | 0 <= i < |parts| :: parts[i] == ""
  }

  function Above(at: Place): Place {
    if at == [] then [] else at[..|at| - 1]
  }

  function Walk(fs: Fs, at: Place, parts: seq<string>, follow: bool, budget: nat): Walked
    decreases budget, |parts|
  {
    if parts == [] then Found(at, budget)
    else if !IsFolder(fs, at) then Lost
    else if parts[0] == "" || parts[0] == "." then Walk(fs, at, parts[1..], follow, budget)
    else if parts[0] == ".." then Walk(fs, Above(at), parts[1..], follow, budget)
    else
      var next := at + [parts[0]];
      var rest := parts[1..];
      if next !in fs then (if AllEmpty(rest) then Missing(next, rest != []) else Lost)
      else if fs[next].Link? && (follow || rest != []) then
        if budget == 0 then Lost else
        var target := fs[next].target;
        Walk(fs, if IsAbs(target) then [] else at, Split(target) + rest, follow, budget - 1)
      else Walk(fs, next, rest, follow, budget)
  }

  function Start(cwd: Place, path: string): Place {
    if IsAbs(path) then [] else cwd
  }

  // stat follows a link in the last component, lstat does not.
  function LookUp(fs: Fs, cwd: Place, path: string, follow: bool): Walked {
    if path == "" then Lost else Walk(fs, Start(cwd, path), Split(path), follow, MAX_LINKS)
  }

  function Stat(fs: Fs, cwd: Place, path: string): Option<Node> {
    NodeAt(fs, LookUp(fs, cwd, path, true))
  }

  function Lstat(fs: Fs, cwd: Place, path: string): Option<Node> {
    NodeAt(fs, LookUp(fs, cwd, path, false))
  }

  function NodeAt(fs: Fs, r: Walked): Option<Node> {
    if r.Found? && r.at in fs then Some(fs[r.at]) else None
  }

  predicate IsDir(node: Option<Node>) {
    node.Some? && node.value.Folder?
  }

  // ---------------------------------------------------------------- walking on

  lemma EmptyConcat(a: seq<string>, b: seq<string>)
    ensures AllEmpty(a + b) <==> AllEmpty(a) && AllEmpty(b)
  {
    assert forall i | 0 <= i < |a| :: (a + b)[i] == a[i];
    assert forall i | 0 <= i < |b| :: (a + b)[|a| + i] == b[i];
  }

  // From where a walk came to, it continues with what is left of its budget.
  function Onward(fs: Fs, r: Walked, parts: seq<string>, follow: bool): Walked {
    match r
    case Found(at, left) => Walk(fs, at, parts, follow, left)
    case Missing(at, _) => if AllEmpty(parts) then Missing(at, true) else Lost
    case Lost => Lost
  }

  lemma {:induction false} WalkOn(fs: Fs, at: Place, a: seq<string>, b: seq<string>, follow: bool, budget: nat)
    requires b != []
    ensures Walk(fs, at, a + b, follow, budget) == Onward(fs, Walk(fs, at, a, true, budget), b, follow)
    decreases budget, |a|
  {
    if a == [] {
      assert a + b == b;
    } else if IsFolder(fs, at) {
      assert (a + b)[1..] == a[1..] + b;
      var next := at + [a[0]];
      if a[0] == "" || a[0] == "." {
        WalkOn(fs, at, a[1..], b, follow, budget);
      } else if a[0] == ".." {
        WalkOn(fs, Above(at), a[1..], b, follow, budget);
      } else if next !in fs {
        EmptyConcat(a[1..], b);
      } else if fs[next].Link? {
        if budget > 0 {
          var t := fs[next].target;
          assert Split(t) + a[1..] + b == Split(t) + (a[1..] + b);
          WalkOn(fs, if IsAbs(t) then [] else at, Split(t) + a[1..], b, follow, budget - 1);
        }
      } else {
        WalkOn(fs, next, a[1..], b, follow, budget);
      }
    }
  }

  // Empty parts and a final slash change nothing about a directory.
  lemma {:induction false} WalkSlashes(fs: Fs, at: Place, parts: seq<string>, follow: bool, budget: nat)
    requires AllEmpty(parts) && IsFolder(fs, at)
    ensures Walk(fs, at, parts, follow, budget) == Found(at, budget)
  {
    if parts != [] {
      WalkSlashes(fs, at, parts[1..], follow, budget);
    }
  }

  // What lstat finds to be no link, stat finds as well.
  lemma {:induction false} FollowAgrees(fs: Fs, at: Place, parts: seq<string>, budget: nat)
    ensures var r := Walk(fs, at, parts, false, budget);
            Walk(fs, at, parts, true, budget) == r || (r.Found? && IsLink(fs, r.at))
    decreases budget, |parts|
  {
    if parts != [] && IsFolder(fs, at) {
      var next := at + [parts[0]];
      if parts[0] == "" || parts[0] == "." {
        FollowAgrees(fs, at, parts[1..], budget);
      } else if parts[0] == ".." {
        FollowAgrees(fs, Above(at), parts[1..], budget);
      } else if next in fs {
        if fs[next].Link? && parts[1..] != [] {
          if budget > 0 {
            var t := fs[next].target;
            FollowAgrees(fs, if IsAbs(t) then [] else at, Split(t) + parts[1..], budget - 1);
          }
        } else {
          FollowAgrees(fs, next, parts[1..], budget);
        }
      }
    }
  }

  lemma {:induction false} FoundIsThere(fs: Fs, at: Place, parts: seq<string>, follow: bool, budget: nat)
    requires WellFormed(fs) && at in fs && Walk(fs, at, parts, follow, budget).Found?
    ensures Walk(fs, at, parts, follow, budget).at in fs
    decreases budget, |parts|
  {
    if parts != [] {
      var next := at + [parts[0]];
      if parts[0] == "" || parts[0] == "." {
        FoundIsThere(fs, at, parts[1..], follow, budget);
      } else if parts[0] == ".." {
        assert Rooted(fs, at);
        FoundIsThere(fs, Above(at), parts[1..], follow, budget);
      } else if fs[next].Link? && (follow || parts[1..] != []) {
        var t := fs[next].target;
        FoundIsThere(fs, if IsAbs(t) then [] else at, Split(t) + parts[1..], follow, budget - 1);
      } else {
        FoundIsThere(fs, next, parts[1..], follow, budget);
      }
    }
  }

  // A missing place has a proper name in a directory.
  lemma {:induction false} MissingIsFree(fs: Fs, at: Place, parts: seq<string>, follow: bool, budget: nat)
    requires WellFormed(fs) && at in fs && Walk(fs, at, parts, follow, budget).Missing?
    requires AreParts(parts)
    ensures var q := Walk(fs, at, parts, follow, budget).at;
            q != [] && q !in fs && Rooted(fs, q)
    decreases budget, |parts|
  {
    var next := at + [parts[0]];
    if parts[0] == "" || parts[0] == "." {
      MissingIsFree(fs, at, parts[1..], follow, budget);
    } else if parts[0] == ".." {
      MissingIsFree(fs, Above(at), parts[1..], follow, budget);
    } else if next !in fs {
      assert next[..|next| - 1] == at;
    } else if fs[next].Link? && (follow || parts[1..] != []) {
      var t := fs[next].target;
      MissingIsFree(fs, if IsAbs(t) then [] else at, Split(t) + parts[1..], follow, budget - 1);
    } else {
      MissingIsFree(fs, next, parts[1..], follow, budget);
    }
  }

  // ---------------------------------------------------------------- growing trees

  // No node of fs is gone or changed in gs.
  ghost predicate Extends(fs: Fs, gs: Fs) {
    forall at | at in fs :: at in gs && gs[at] == fs[at]
  }

  // What a walk finds stays where it is when nodes are added.
  lemma {:induction false} WalkGrows(fs: Fs, gs: Fs, at: Place, parts: seq<string>, follow: bool, budget: nat)
    requires Extends(fs, gs) && Walk(fs, at, parts, follow, budget).Found?
    ensures Walk(gs, at, parts, follow, budget) == Walk(fs, at, parts, follow, budget)
    decreases budget, |parts|
  {
    if parts != [] {
      var next := at + [parts[0]];
      if parts[0] == "" || parts[0] == "." {
        WalkGrows(fs, gs, at, parts[1..], follow, budget);
      } else if parts[0] == ".." {
        WalkGrows(fs, gs, Above(at), parts[1..], follow, budget);
      } else if fs[next].Link? && (follow || parts[1..] != []) {
        var t := fs[next].target;
        WalkGrows(fs, gs, if IsAbs(t) then [] else at, Split(t) + parts[1..], follow, budget - 1);
      } else {
        WalkGrows(fs, gs, next, parts[1..], follow, budget);
      }
    }
  }

  // A node made at the missing place is what the same walk finds then.
  lemma {:induction false} WalkFindsNew(fs: Fs, node: Node, at: Place, parts: seq<string>, follow: bool, budget: nat)
    requires Walk(fs, at, parts, follow, budget).Missing?
    requires node.Folder? || (node.File? && !Walk(fs, at, parts, follow, budget).slash)
    ensures var q := Walk(fs, at, parts, follow, budget).at;
            var r := Walk(fs[q := node], at, parts, follow, budget); r.Found? && r.at == q
    ensures Walk(fs, at, parts, follow, budget).at !in fs
    decreases budget, |parts|
  {
    var next := at + [parts[0]];
    if parts[0] == "" || parts[0] == "." {
      WalkFindsNew(fs, node, at, parts[1..], follow, budget);
    } else if parts[0] == ".." {
      WalkFindsNew(fs, node, Above(at), parts[1..], follow, budget);
    } else if next !in fs {
      if node.Folder? { WalkSlashes(fs[next := node], next, parts[1..], follow, budget); }
    } else if fs[next].Link? && (follow || parts[1..] != []) {
      var t := fs[next].target;
      WalkFindsNew(fs, node, if IsAbs(t) then [] else at, Split(t) + parts[1..], follow, budget - 1);
    } else {
      WalkFindsNew(fs, node, next, parts[1..], follow, budget);
    }
  }
}
