/**
  Namespaces: the list LXC is told to keep, and the clone flags with which commands join a container.
 */
module Namespaces {
  import opened LxcConfig
  import opened Options
  import opened Paths

  // A namespace of the specification: the name of its type, and the path of an existing one to share,
  // if any.
  datatype Namespace = Namespace(typ: string, path: string)

  datatype Kind = Cgroup | Ipc | Mount | Network | Process | User | Uts

  const KINDS: set<Kind> := {Cgroup, Ipc, Mount, Network, Process, User, Uts}

  // The type names of the OCI runtime specification.
  function KindOf(typ: string): Option<Kind> {
    if typ == "cgroup" then Some(Cgroup) else if typ == "ipc" then Some(Ipc) else if typ == "mount" then Some(Mount)
    else if typ == "network" then Some(Network) else if typ == "pid" then Some(Process)
        else if typ == "user" then Some(User)
    else if typ == "uts" then Some(Uts) else None
  }

  // LXC's name.
  function LxcName(kind: Kind): string {
    match kind
    case Cgroup => "cgroup"
    case Ipc => "ipc"
    case Mount => "mnt"
    case Network => "net"
    case Process => "pid"
    case User => "user"
    case Uts => "uts"
  }

  // The kernel's flag.
  function CloneFlag(kind: Kind): bv32 {
    match kind
    case Cgroup => 0x02000000
    case Ipc => 0x08000000
    case Mount => 0x00020000
    case Network => 0x40000000
    case Process => 0x20000000
    case User => 0x10000000
    case Uts => 0x04000000
  }

  function Kinds(namespaces: seq<Namespace>): set<Kind> {
    set i | 0 <= i < |namespaces| && KindOf(namespaces[i].typ).Some? :: KindOf(namespaces[i].typ).value
  }

  predicate AllSupported(namespaces: seq<Namespace>) {
    forall i | 0 <= i < |namespaces| :: KindOf(namespaces[i].typ).Some?
  }

  lemma KindsSnoc(namespaces: seq<Namespace>, n: Namespace)
    requires KindOf(n.typ).Some?
    ensures Kinds(namespaces + [n]) == Kinds(namespaces) + {KindOf(n.typ).value}
  {
    var all := namespaces + [n];
    assert all[|namespaces|] == n;
    assert forall i | 0 <= i < |namespaces| :: all[i] == namespaces[i];
  }

  // ---------------------------------------------------------------- clone flags

  // The flags say of every kind whether it is in the set, and nothing else.
  ghost predicate Denotes(flags: bv32, kinds: set<Kind>) {
    (forall k: Kind :: Has(flags, k, k in kinds)) && flags & 0x81fd_ffff == 0
  }

  // The flag of kind k is set, or it is not.
  predicate Has(flags: bv32, k: Kind, yes: bool) {
    HasBit(flags, CloneFlag(k), yes)
  }

  predicate HasBit(x: bv32, g: bv32, yes: bool) {
    x & g == if yes then g else 0
  }

  // None is an unsupported type.
  method CloneFlags(namespaces: seq<Namespace>) returns (r: Option<bv32>)
    ensures r.Some? <==> AllSupported(namespaces)
    ensures r.Some? ==> Denotes(r.value, Kinds(namespaces))
  {
    var flags: bv32 := 0;
    NothingDenoted();
    for i := 0 to |namespaces|
      invariant AllSupported(namespaces[..i]) && Denotes(flags, Kinds(namespaces[..i]))
    {
      var kind := KindOf(namespaces[i].typ);
      if kind.None? { return None; }
      assert namespaces[..i + 1] == namespaces[..i] + [namespaces[i]];
      KindsSnoc(namespaces[..i], namespaces[i]);
      OneMoreDenoted(flags, Kinds(namespaces[..i]), kind.value);
      flags := flags | CloneFlag(kind.value);
    }
    assert namespaces[..|namespaces|] == namespaces;
    return Some(flags);
  }

  lemma NothingDenoted()
    ensures Denotes(0, {})
  {
    forall k: Kind ensures Has(0, k, false) { AndNothing(CloneFlag(k)); }
  }

  lemma AndNothing(g: bv32)
    ensures (0 as bv32) & g == 0
  {
  }

  lemma OneHot(k: Kind, l: Kind)
    ensures HasBit(CloneFlag(k), CloneFlag(l), k == l)
    ensures CloneFlag(k) != 0
  {
  }

  lemma OrKeepsClear(x: bv32, f: bv32, g: bv32)
    requires x & g == 0 && f & g == 0
    ensures (x | f) & g == 0
  {
  }

  lemma OrKeepsSet(x: bv32, f: bv32, g: bv32)
    requires x & g == g
    ensures (x | f) & g == g
  {
  }

  lemma OrSets(x: bv32, f: bv32, g: bv32)
    requires f & g == g
    ensures (x | f) & g == g
  {
  }

  lemma EitherBit(x: bv32, f: bv32, g: bv32, yes: bool, same: bool)
    requires HasBit(x, g, yes) && HasBit(f, g, same)
    ensures HasBit(x | f, g, yes || same)
  {
    if yes { OrKeepsSet(x, f, g); } else if same { OrSets(x, f, g); } else { OrKeepsClear(x, f, g); }
  }

  lemma HasMore(flags: bv32, kind: Kind, k: Kind, yes: bool)
    requires Has(flags, k, yes)
    ensures Has(flags | CloneFlag(kind), k, yes || k == kind)
  {
    OneHot(kind, k);
    EitherBit(flags, CloneFlag(kind), CloneFlag(k), yes, k == kind);
  }

  lemma OneMoreDenoted(flags: bv32, kinds: set<Kind>, kind: Kind)
    requires Denotes(flags, kinds)
    ensures Denotes(flags | CloneFlag(kind), kinds + {kind})
  {
    forall k: Kind ensures Has(flags | CloneFlag(kind), k, k in kinds + {kind}) { HasMore(flags, kind, k, k in kinds); }
    NoOtherBits(kind);
    OrKeepsClear(flags, CloneFlag(kind), 0x81fd_ffff);
  }

  lemma NoOtherBits(kind: Kind)
    ensures CloneFlag(kind) & 0x81fd_ffff == 0
  {
  }

  // ---------------------------------------------------------------- sharing and keeping

  predicate NoDuplicates(namespaces: seq<Namespace>) {
    forall i, j | 0 <= i < j < |namespaces| :: namespaces[i].typ != namespaces[j].typ
  }

  predicate SharesSupported(namespaces: seq<Namespace>) {
    forall i | 0 <= i < |namespaces| :: namespaces[i].path != "" ==> KindOf(namespaces[i].typ).Some?
  }

  // The items that share existing namespaces, in order.
  function Share(n: Namespace): seq<(string, string)>
    requires n.path != "" ==> KindOf(n.typ).Some?
  {
    if n.path == "" then [] else [("lxc.namespace.share." + LxcName(KindOf(n.typ).value), n.path)]
  }

  function Shares(namespaces: seq<Namespace>): seq<(string, string)>
    requires SharesSupported(namespaces)
    decreases |namespaces|
  {
    if namespaces == [] then []
    else Shares(namespaces[..|namespaces| - 1]) + Share(namespaces[|namespaces| - 1])
  }

  // A user namespace of its own needs a network namespace of its own.
  predicate NetworkFollowsUser(namespaces: seq<Namespace>) {
    User in Kinds(namespaces) ==> Network in Kinds(namespaces)
  }

  // The names, each once, of exactly the kinds that are not listed.
  ghost predicate KeepsTheOthers(keep: seq<string>, namespaces: seq<Namespace>) {
    KeepsAmong(keep, KINDS - Kinds(namespaces))
  }

  // The second loop. A Go map is visited in any order.
  method KeepUnseen(all: set<Kind>, seen: set<string>) returns (keep: seq<string>)
    ensures KeepsAmong(keep, set k | k in all && TypeName(k) !in seen)
  {
    keep := [];
    var left := all;
    ghost var kept: set<Kind> := {};
    while left != {}
      invariant left <= all && KeepsAmong(keep, kept)
      invariant kept == set k | k in all && k !in left && TypeName(k) !in seen
      decreases |left|
    {
      var k :| k in left;
      left := left - {k};
      if TypeName(k) !in seen {
        KeepsOneMore(keep, kept, k);
        keep := keep + [LxcName(k)];
        kept := kept + {k};
      }
    }
  }

  lemma AllKinds()
    ensures forall k: Kind :: k in KINDS
  {
    forall k: Kind ensures k in KINDS {
      match k case Cgroup => case Ipc => case Mount => case Network => case Process => case User => case Uts =>
    }
  }

  lemma LacksNetwork(namespaces: seq<Namespace>, seen: set<string>)
    requires seen == Types(namespaces)
    ensures "network" !in seen && "user" in seen <==> !NetworkFollowsUser(namespaces)
  {
    TypesAndKinds(namespaces);
  }

  const KEEP := "lxc.namespace.keep"

  function KeepItem(ok: bool, keep: seq<string>): seq<(string, string)> {
    if ok then [(KEEP, Between(keep, " "))] else []
  }

  lemma KeptAreOthers(namespaces: seq<Namespace>, seen: set<string>, keep: seq<string>)
    requires seen == Types(namespaces) && KeepsAmong(keep, set k | k in KINDS && TypeName(k) !in seen)
    ensures KeepsTheOthers(keep, namespaces)
  {
    TypesAndKinds(namespaces);
    assert (set k | k in KINDS && TypeName(k) !in seen) == KINDS - Kinds(namespaces);
  }

  class Runtime {
    const config: Config

    constructor (config: Config)
      ensures this.config == config
    {
      this.config := config;
    }

    predicate AllAccepted(list: seq<(string, string)>) {
      forall i | 0 <= i < |list| :: config.accepts(list[i].0, list[i].1)
    }

    predicate Shareable(namespaces: seq<Namespace>) {
      NoDuplicates(namespaces) && SharesSupported(namespaces) && AllAccepted(Shares(namespaces))
    }

    lemma ShareableSnoc(a: seq<Namespace>, n: Namespace)
      ensures Shareable(a + [n]) <==>
                Shareable(a) && n.typ !in Types(a) && (n.path != "" ==> KindOf(n.typ).Some?) && AllAccepted(Share(n))
      ensures Shareable(a + [n]) ==> Shares(a + [n]) == Shares(a) + Share(n)
    {
      var all := a + [n];
      assert all[..|all| - 1] == a && all[|all| - 1] == n;
      assert forall i | 0 <= i < |a| :: all[i] == a[i];
      assert NoDuplicates(all) <==> NoDuplicates(a) && n.typ !in Types(a);
      assert SharesSupported(all) <==> SharesSupported(a) && (n.path != "" ==> KindOf(n.typ).Some?);
      if SharesSupported(all) { AcceptedConcat(Shares(a), Share(n)); }
    }

    lemma AcceptedConcat(a: seq<(string, string)>, b: seq<(string, string)>)
      ensures AllAccepted(a + b) <==> AllAccepted(a) && AllAccepted(b)
    {
      assert forall i | 0 <= i < |a| :: (a + b)[i] == a[i];
      assert forall i | 0 <= i < |b| :: (a + b)[|a| + i] == b[i];
    }

    lemma {:induction false} ShareablePrefix(namespaces: seq<Namespace>, k: nat)
      requires Shareable(namespaces) && k <= |namespaces|
      ensures Shareable(namespaces[..k])
      decreases |namespaces|
    {
      if k < |namespaces| {
        var init, last := namespaces[..|namespaces| - 1], namespaces[|namespaces| - 1];
        assert namespaces == init + [last] && init[..k] == namespaces[..k];
        ShareableSnoc(init, last);
        ShareablePrefix(init, k);
      } else {
        assert namespaces[..k] == namespaces;
      }
    }

    // The namespaces before the i-th were shared.
    ghost predicate Sharing(namespaces: seq<Namespace>, i: nat, added: seq<(string, string)>, seen: set<string>) {
      i <= |namespaces| && Shareable(namespaces[..i]) && added == Shares(namespaces[..i])
          && seen == Types(namespaces[..i])
    }

    // Whether the i-th namespace is shared, or stops the loop.
    predicate MayShare(n: Namespace, seen: set<string>) {
      n.typ !in seen && (n.path != "" ==> KindOf(n.typ).Some?) && AllAccepted(Share(n))
    }

    lemma SharingOn(namespaces: seq<Namespace>, i: nat, added: seq<(string, string)>, seen: set<string>)
      requires Sharing(namespaces, i, added, seen) && i < |namespaces|
      ensures var n := namespaces[i];
              if MayShare(n, seen) then Sharing(namespaces, i + 1, added + Share(n), seen + {n.typ})
              else !Shareable(namespaces[..i + 1]) && !Shareable(namespaces)
    {
      var n := namespaces[i];
      assert namespaces[..i + 1] == namespaces[..i] + [n];
      if MayShare(n, seen) { TypesSnoc(namespaces[..i], n); }
      ShareableSnoc(namespaces[..i], n);
      if Shareable(namespaces) { ShareablePrefix(namespaces, i + 1); }
    }

    // The body of the first loop.
    method ShareNamespace(n: Namespace, seen: set<string>) returns (ok: bool)
      modifies config`items
      ensures ok <==> MayShare(n, seen)
      ensures config.items == old(config.items) + if ok then Share(n) else []
    {
      if n.typ in seen { return false; }
      if n.path == "" { return true; }
      if KindOf(n.typ).None? { return false; }
      ok := config.SetConfigItem("lxc.namespace.share." + LxcName(KindOf(n.typ).value), n.path);
      assert Share(n)[0] == ("lxc.namespace.share." + LxcName(KindOf(n.typ).value), n.path);
    }

    // The k-th namespace is the first that cannot be shared.
    predicate StopsAt(namespaces: seq<Namespace>, k: nat) {
      k < |namespaces| && Shareable(namespaces[..k]) && !Shareable(namespaces[..k + 1])
    }

    // The first loop: an item for every namespace with a path; a type must not come twice.
    method ShareNamespaces(namespaces: seq<Namespace>) returns (ok: bool, seen: set<string>, ghost k: nat)
      modifies config`items
      ensures ok <==> Shareable(namespaces)
      ensures if ok then k == |namespaces| else StopsAt(namespaces, k)
      ensures Shareable(namespaces[..k]) && config.items == old(config.items) + Shares(namespaces[..k])
      ensures ok ==> seen == Types(namespaces)
    {
      k := 0;
      seen := {};
      ghost var added := [];
      for i := 0 to |namespaces|
        invariant Sharing(namespaces, i, added, seen) && config.items == old(config.items) + added && k == i
      {
        SharingOn(namespaces, i, added, seen);
        ok := ShareNamespace(namespaces[i], seen);
        if !ok { return; }
        added := added + Share(namespaces[i]);
        seen := seen + {namespaces[i].typ};
        k := k + 1;
      }
      assert namespaces[..|namespaces|] == namespaces;
      ok := true;
    }

    // What is set when the namespaces before the k-th can be shared, and whether that is success.
    ghost predicate Configured(namespaces: seq<Namespace>, k: nat, keep: seq<string>, added: seq<(string, string)>,
          ok: bool) {
      if !Shareable(namespaces) then !ok && StopsAt(namespaces, k) && added == Shares(namespaces[..k])
      else if !NetworkFollowsUser(namespaces) then !ok && added == Shares(namespaces)
      else KeepsTheOthers(keep, namespaces) && ok == config.accepts(KEEP, Between(keep, " "))
           && added == Shares(namespaces) + KeepItem(ok, keep)
    }

    // The second loop and the item for the namespaces to keep.
    method KeepNamespaces(namespaces: seq<Namespace>, seen: set<string>) returns (ok: bool, ghost keep: seq<string>)
      requires seen == Types(namespaces)
      modifies config`items
      ensures KeepsTheOthers(keep, namespaces) && ok == config.accepts(KEEP, Between(keep, " "))
      ensures config.items == old(config.items) + KeepItem(ok, keep)
    {
      var nsToKeep := KeepUnseen(KINDS, seen);
      KeptAreOthers(namespaces, seen, nsToKeep);
      keep := nsToKeep;
      ok := config.SetConfigItem(KEEP, Between(nsToKeep, " "));
    }

    method ConfigureNamespaces(namespaces: seq<Namespace>)
      returns (ok: bool, ghost keep: seq<string>, ghost k: nat, ghost added: seq<(string, string)>)
      modifies config`items
      ensures config.items == old(config.items) + added
      ensures Configured(namespaces, k, keep, added, ok)
    {
      keep := [];
      var seen;
      ok, seen, k := ShareNamespaces(namespaces);
      added := Shares(namespaces[..k]);
      if !ok { return; }
      assert namespaces[..k] == namespaces;
      LacksNetwork(namespaces, seen);
      if "network" !in seen && "user" in seen { return false, keep, k, added; }
      ok, keep := KeepNamespaces(namespaces, seen);
      added := added + KeepItem(ok, keep);
    }
  }

  function Types(namespaces: seq<Namespace>): set<string> {
    set i | 0 <= i < |namespaces| :: namespaces[i].typ
  }

  lemma TypesSnoc(a: seq<Namespace>, n: Namespace)
    ensures Types(a + [n]) == Types(a) + {n.typ}
  {
    var all := a + [n];
    assert all[|a|] == n;
    assert forall i | 0 <= i < |a| :: all[i] == a[i];
  }

  function TypeName(kind: Kind): string {
    match kind
    case Cgroup => "cgroup"
    case Ipc => "ipc"
    case Mount => "mount"
    case Network => "network"
    case Process => "pid"
    case User => "user"
    case Uts => "uts"
  }

  lemma TypeNameOf(kind: Kind, typ: string)
    ensures KindOf(typ) == Some(kind) <==> typ == TypeName(kind)
  {
  }

  lemma TypesAndKinds(namespaces: seq<Namespace>)
    ensures forall k: Kind :: k in Kinds(namespaces) <==> TypeName(k) in Types(namespaces)
  {
    forall k: Kind ensures k in Kinds(namespaces) <==> TypeName(k) in Types(namespaces) {
      forall i | 0 <= i < |namespaces|
        ensures KindOf(namespaces[i].typ) == Some(k) <==> namespaces[i].typ == TypeName(k)
      {
        TypeNameOf(k, namespaces[i].typ);
      }
    }
  }

  lemma LxcNameIsInjective(k: Kind, l: Kind)
    ensures LxcName(k) == LxcName(l) ==> k == l
  {
  }

  // The names of exactly these kinds, each once.
  ghost predicate KeepsAmong(keep: seq<string>, kinds: set<Kind>) {
    && (forall i, j | 0 <= i < j < |keep| :: keep[i] != keep[j])
    && (forall k: Kind :: LxcName(k) in keep <==> k in kinds)
    && (forall s | s in keep :: exists k: Kind :: s == LxcName(k))
  }

  lemma KeepsOneMore(keep: seq<string>, kinds: set<Kind>, kind: Kind)
    requires KeepsAmong(keep, kinds) && kind !in kinds
    ensures KeepsAmong(keep + [LxcName(kind)], kinds + {kind})
  {
    forall k: Kind ensures LxcName(k) == LxcName(kind) ==> k == kind { LxcNameIsInjective(k, kind); }
  }

  // For supported types the clone flags and the kept names are exact complements: a flag is set just
  // when the name is not kept, whatever the order of the list.
  lemma FlagsAndKeptNamesAreComplements(namespaces: seq<Namespace>, flags: bv32, keep: seq<string>, k: Kind)
    requires Denotes(flags, Kinds(namespaces)) && KeepsTheOthers(keep, namespaces)
    ensures flags & CloneFlag(k) != 0 <==> LxcName(k) !in keep
  {
    OneHot(k, k);
    AllKinds();
    assert Has(flags, k, k in Kinds(namespaces));
  }

  lemma FlagsAreTheirBits(x: bv32)
    ensures x == (x & 0x02000000) | (x & 0x08000000) | (x & 0x00020000)
                 | (x & 0x40000000) | (x & 0x20000000) | (x & 0x10000000)
                 | (x & 0x04000000) | (x & 0x81fd_ffff)
  {
  }

  lemma SameBit(flags: bv32, other: bv32, kinds: set<Kind>, k: Kind)
    requires Denotes(flags, kinds) && Denotes(other, kinds)
    ensures flags & CloneFlag(k) == other & CloneFlag(k)
  {
    assert Has(flags, k, k in kinds) && Has(other, k, k in kinds);
  }

  // The set of listed types determines the flags, whatever the order of the list.
  lemma FlagsAreDetermined(flags: bv32, other: bv32, kinds: set<Kind>)
    requires Denotes(flags, kinds) && Denotes(other, kinds)
    ensures flags == other
  {
    FlagsAreTheirBits(flags);
    FlagsAreTheirBits(other);
    SameBit(flags, other, kinds, Cgroup);
    SameBit(flags, other, kinds, Ipc);
    SameBit(flags, other, kinds, Mount);
    SameBit(flags, other, kinds, Network);
    SameBit(flags, other, kinds, Process);
    SameBit(flags, other, kinds, User);
    SameBit(flags, other, kinds, Uts);
  }
}
