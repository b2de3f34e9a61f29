/**
  Access to devices: the rules of the container's specification, the default devices that are added to
  it, and the rules that are handed to LXC.
 */
module DeviceRules {
  import opened Options
  import opened Devices
  import opened LxcConfig
  import opened Specification

  // None is any number.
  datatype Rule = Rule(allow: bool, typ: string, major: Option<int>, minor: Option<int>, access: string)

  // ---------------------------------------------------------------- what rules decide

  // One kind of access, a letter of "rwm", to a block or character device.
  datatype Query = Query(typ: string, major: int, minor: int, access: char)

  predicate Matches(r: Rule, q: Query) {
    && (r.typ == "" || r.typ == q.typ)
    && (r.major.Some? ==> r.major.value == q.major)
    && (r.minor.Some? ==> r.minor.value == q.minor)
    && q.access in r.access
  }

  // The last rule that matches decides.
  function Decide(rules: seq<Rule>, q: Query, otherwise: bool): bool {
    if rules == [] then otherwise
    else Decide(rules[1..], q, if Matches(rules[0], q) then rules[0].allow else otherwise)
  }

  // ---------------------------------------------------------------- the rules for LXC

  predicate DeniesAnyType(r: Rule) {
    r.typ == "" && !r.allow
  }

  predicate KnownType(r: Rule) {
    r.typ == "" || r.typ == "b" || r.typ == "c"
  }

  // A rule for any type becomes one for block and one for character devices; denying any type is
  // left out.
  function Decomposed(r: Rule): seq<Rule> {
    if r.typ != "" then [r] else if !r.allow then [] else [r.(typ := "b"), r.(typ := "c")]
  }

  // All rules up to the first of an unknown type.
  function Emitted(rules: seq<Rule>): seq<Rule> {
    if rules == [] || !KnownType(rules[0]) then [] else Decomposed(rules[0]) + Emitted(rules[1..])
  }

  function Star(n: Option<int>): string {
    match n case None => "*" case Some(k) => Decimal(k)
  }

  function ItemKey(r: Rule): string {
    if r.allow then "lxc.cgroup2.devices.allow" else "lxc.cgroup2.devices.deny"
  }

  function ItemValue(r: Rule): string {
    r.typ + " " + Star(r.major) + ":" + Star(r.minor) + " " + r.access
  }

  function Items(rules: seq<Rule>): seq<(string, string)> {
    seq(|rules|, i requires 0 <= i < |rules| => (ItemKey(rules[i]), ItemValue(rules[i])))
  }

  // ---------------------------------------------------------------- default devices

  const DEFAULT_MODE: nat := 438 // 0666

  function Character(path: string, major: int, minor: int, user: User): Device {
    Device(path, "c", major, minor, Some(DEFAULT_MODE), Some(user.uid), Some(user.gid))
  }

  function Defaults(user: User): seq<Device> {
    [Character("/dev/null", 1, 3, user), Character("/dev/zero", 1, 5, user), Character("/dev/full", 1, 7, user),
     Character("/dev/random", 1, 8, user), Character("/dev/urandom", 1, 9, user), Character("/dev/tty", 5, 0, user)]
  }

  predicate Enabled(devices: seq<Device>, path: string) {
    exists i | 0 <= i < |devices| :: devices[i].path == path
  }

  function AllowRule(d: Device): Rule {
    Rule(true, d.typ, Some(d.major), Some(d.minor), "rwm")
  }

  // The defaults that the given devices do not have.
  function MissingFrom(devices: seq<Device>, defaults: seq<Device>): seq<Device> {
    if defaults == [] then []
    else (if Enabled(devices, defaults[0].path) then [] else [defaults[0]]) + MissingFrom(devices, defaults[1..])
  }

  function AllowRules(devices: seq<Device>): seq<Rule> {
    seq(|devices|, i requires 0 <= i < |devices| => AllowRule(devices[i]))
  }

  const PTMX_RULE := Rule(true, "c", Some(5), Some(2), "rwm")
  const PTS_RULE := Rule(true, "c", Some(88), None, "rwm")

  // What ensureDefaultDevices appends to the rules.
  function AddedRules(devices: seq<Device>, user: User): seq<Rule> {
    [PTMX_RULE, PTS_RULE] + AllowRules(MissingFrom(devices, Defaults(user)))
  }

  class Spec {
    var devices: seq<Device>
    var rules: seq<Rule>
    const user: User

    constructor (devices: seq<Device>, rules: seq<Rule>, user: User)
      ensures this.devices == devices && this.rules == rules && this.user == user
    {
      this.devices, this.rules, this.user := devices, rules, user;
    }

    method IsDeviceEnabled(path: string) returns (enabled: bool)
      ensures enabled <==> Enabled(devices, path)
    {
      for i := 0 to |devices|
        invariant forall j | 0 <= j < i :: devices[j].path != path
      {
        if devices[i].path == path { return true; }
      }
      return false;
    }

    method AddDevicePerms(typ: string, major: Option<int>, minor: Option<int>, access: string)
      modifies this`rules
      ensures rules == old(rules) + [Rule(true, typ, major, minor, access)]
    {
      rules := rules + [Rule(true, typ, major, minor, access)];
    }

    // The loop of ensureDefaultDevices.
    method AddMissing(defaults: seq<Device>)
      requires forall i, j | 0 <= i < j < |defaults| :: defaults[i].path != defaults[j].path
      modifies this`devices, this`rules
      ensures devices == old(devices) + MissingFrom(old(devices), defaults)
      ensures rules == old(rules) + AllowRules(MissingFrom(old(devices), defaults))
    {
      ghost var added := [];
      assert defaults[0..] == defaults;
      assert [] + MissingFrom(devices, defaults) == MissingFrom(devices, defaults);
      for i := 0 to |defaults|
        invariant devices == old(devices) + added && rules == old(rules) + AllowRules(added)
        invariant MissingFrom(old(devices), defaults) == added + MissingFrom(old(devices), defaults[i..])
        invariant forall d | d in added :: exists j | 0 <= j < i :: d == defaults[j]
      {
        var d := defaults[i];
        var enabled := IsDeviceEnabled(d.path);
        EnabledBefore(old(devices), added, d.path);
        MissingOn(old(devices), defaults, added, i);
        if !enabled {
          AddDevice(d, "rwm");
          AllowMore(added, d);
          added := added + [d];
        }
      }
      assert added + [] == added;
    }

    method AddDevice(d: Device, access: string)
      modifies this`devices, this`rules
      ensures devices == old(devices) + [d]
      ensures rules == old(rules) + [Rule(true, d.typ, Some(d.major), Some(d.minor), access)]
    {
      devices := devices + [d];
      AddDevicePerms(d.typ, Some(d.major), Some(d.minor), access);
    }
  }

  class Runtime {
    const config: Config
    const cgroupDevices: bool

    constructor (config: Config, cgroupDevices: bool)
      ensures this.config == config && this.cgroupDevices == cgroupDevices
    {
      this.config, this.cgroupDevices := config, cgroupDevices;
    }

    method EnsureDefaultDevices(spec: Spec) returns (ok: bool)
      modifies config`items, spec`devices, spec`rules
      ensures ok == config.accepts("lxc.autodev", "0")
      ensures !ok ==>
                spec.devices == old(spec.devices) && spec.rules == old(spec.rules) && config.items == old(config.items)
      ensures ok ==>
                && config.items == old(config.items) + [("lxc.autodev", "0")]
                && spec.devices == old(spec.devices) + MissingFrom(old(spec.devices), Defaults(spec.user))
                && spec.rules == old(spec.rules) + AddedRules(old(spec.devices), spec.user)
    {
      ok := config.SetConfigItem("lxc.autodev", "0");
      if !ok { return; }
      spec.AddDevicePerms("c", Some(5), Some(2), "rwm");
      spec.AddDevicePerms("c", Some(88), None, "rwm");
      DefaultsAreDistinct(spec.user);
      spec.AddMissing(Defaults(spec.user));
    }

    // One rule: an item for each type it is decomposed to, as far as liblxc accepts them.
    method ConfigureRule(r: Rule) returns (ok: bool, ghost k: nat)
      modifies config`items
      ensures k <= |Decomposed(r)| && AllAccepted(Decomposed(r)[..k])
      ensures config.items == old(config.items) + Items(if KnownType(r) then Decomposed(r)[..k] else [])
      ensures ok <==> KnownType(r) && k == |Decomposed(r)|
      ensures KnownType(r) && !ok ==> k < |Decomposed(r)| && !Accepted(Decomposed(r)[k])
    {
      k := 0;
      if r.typ == "" {
        if !r.allow { return true, 0; }
        ok := config.SetConfigItem(ItemKey(r), ItemValue(r.(typ := "b")));
        if !ok { return; }
        k := 1;
        ok := config.SetConfigItem(ItemKey(r), ItemValue(r.(typ := "c")));
        if ok { k := 2; }
      } else if r.typ == "b" || r.typ == "c" {
        ok := config.SetConfigItem(ItemKey(r), ItemValue(r));
        if ok { k := 1; }
      } else {
        ok := false;
      }
    }

    // It fails at the first rule of an unknown type or the first item that liblxc refuses, with all
    // items before set.
    method ConfigureDeviceController(rules: seq<Rule>) returns (ok: bool, ghost done: seq<Rule>)
      modifies config`items
      ensures !cgroupDevices ==> ok && config.items == old(config.items)
      ensures cgroupDevices ==> Ended(rules, done, ok) && config.items == old(config.items) + Items(done)
    {
      done := [];
      if !cgroupDevices { return true, []; }
      ok, done := EmitRules(rules);
    }

    // All items are set, or those before the one that stops.
    ghost predicate Ended(rules: seq<Rule>, done: seq<Rule>, ok: bool) {
      && AllAccepted(done) && done <= Emitted(rules)
      && if ok then AllKnown(rules) && done == Emitted(rules) else StopsAfter(rules, done)
    }

    method EmitRules(rules: seq<Rule>) returns (ok: bool, ghost done: seq<Rule>)
      modifies config`items
      ensures Ended(rules, done, ok) && config.items == old(config.items) + Items(done)
    {
      done := [];
      EmittingStarts(rules);
      for i := 0 to |rules|
        invariant Emitting(rules, done, i) && config.items == old(config.items) + Items(done)
      {
        ghost var k;
        ok, k := ConfigureRule(rules[i]);
        ghost var part := if KnownType(rules[i]) then Decomposed(rules[i])[..k] else [];
        EmittingNext(rules, done, i, ok, k, part);
        ItemsConcat(done, part);
        done := done + part;
        if !ok { return; }
      }
      EmittingEnds(rules, done);
      ok := true;
    }

    // One turn of the loop: all of the rule was emitted, or the first k parts of it.
    lemma EmittingNext(rules: seq<Rule>, done: seq<Rule>, i: nat, ok: bool, k: nat, part: seq<Rule>)
      requires i < |rules| && Emitting(rules, done, i)
      requires k <= |Decomposed(rules[i])| && AllAccepted(Decomposed(rules[i])[..k])
      requires ok <==> KnownType(rules[i]) && k == |Decomposed(rules[i])|
      requires KnownType(rules[i]) && !ok ==> k < |Decomposed(rules[i])| && !Accepted(Decomposed(rules[i])[k])
      requires part == if KnownType(rules[i]) then Decomposed(rules[i])[..k] else []
      ensures if ok then Emitting(rules, done + part, i + 1) else Ended(rules, done + part, false)
    {
      if !KnownType(rules[i]) {
        assert done + part == done;
        EmittingUnknown(rules, done, i);
      } else if ok {
        assert Decomposed(rules[i])[..k] == Decomposed(rules[i]);
        EmittingOn(rules, done, i);
      } else {
        EmittingRefused(rules, done, i, k);
      }
    }

    predicate Accepted(r: Rule) {
      config.accepts(ItemKey(r), ItemValue(r))
    }

    predicate AllAccepted(rules: seq<Rule>) {
      forall i | 0 <= i < |rules| :: Accepted(rules[i])
    }

    // The rules before the i-th were all emitted.
    ghost predicate Emitting(rules: seq<Rule>, done: seq<Rule>, i: nat) {
      i <= |rules| && AllKnown(rules[..i]) && AllAccepted(done) && Emitted(rules) == done + Emitted(rules[i..])
    }

    lemma EmittingStarts(rules: seq<Rule>)
      ensures Emitting(rules, [], 0)
    {
      assert rules[0..] == rules && [] + Emitted(rules) == Emitted(rules);
    }

    lemma EmittingUnknown(rules: seq<Rule>, done: seq<Rule>, i: nat)
      requires i < |rules| && Emitting(rules, done, i) && !KnownType(rules[i])
      ensures done <= Emitted(rules) && StopsAfter(rules, done)
    {
      assert Emitted(rules[i..]) == [] && rules[i] in rules;
    }

    lemma EmittingOn(rules: seq<Rule>, done: seq<Rule>, i: nat)
      requires i < |rules| && Emitting(rules, done, i) && KnownType(rules[i]) && AllAccepted(Decomposed(rules[i]))
      ensures var all := Decomposed(rules[i]); all[..|all|] == all && Emitting(rules, done + all, i + 1)
    {
      assert rules[..i + 1] == rules[..i] + [rules[i]];
      EmittedOn(rules, done, i);
      AcceptedConcat(done, Decomposed(rules[i]));
    }

    lemma EmittingRefused(rules: seq<Rule>, done: seq<Rule>, i: nat, k: nat)
      requires i < |rules| && Emitting(rules, done, i) && KnownType(rules[i])
      requires k < |Decomposed(rules[i])| && AllAccepted(Decomposed(rules[i])[..k])
               && !Accepted(Decomposed(rules[i])[k])
      ensures var now := done + Decomposed(rules[i])[..k];
              AllAccepted(now) && now <= Emitted(rules) && StopsAfter(rules, now)
    {
      EmittedOn(rules, done, i);
      AcceptedConcat(done, Decomposed(rules[i])[..k]);
      PrefixThen(done, Decomposed(rules[i]), Emitted(rules[i + 1..]), k);
    }

    lemma AcceptedConcat(a: seq<Rule>, b: seq<Rule>)
      requires AllAccepted(a) && AllAccepted(b)
      ensures AllAccepted(a + b)
    {
    }

    lemma EmittingEnds(rules: seq<Rule>, done: seq<Rule>)
      requires Emitting(rules, done, |rules|)
      ensures Ended(rules, done, true)
    {
      assert rules[..|rules|] == rules && done + [] == done;
    }

    // The next rule after those done is refused, or there is none and some type is unknown.
    predicate StopsAfter(rules: seq<Rule>, done: seq<Rule>)
      requires done <= Emitted(rules)
    {
      if |done| < |Emitted(rules)| then !Accepted(Emitted(rules)[|done|]) else !AllKnown(rules)
    }
  }

  lemma PrefixThen(a: seq<Rule>, b: seq<Rule>, c: seq<Rule>, k: nat)
    requires k < |b|
    ensures a + b[..k] <= a + b + c && |a + b[..k]| < |a + b + c| && (a + b + c)[|a + b[..k]|] == b[k]
  {
  }

  lemma ItemsConcat(a: seq<Rule>, b: seq<Rule>)
    ensures Items(a + b) == Items(a) + Items(b)
  {
  }

  predicate AllKnown(rules: seq<Rule>) {
    forall r | r in rules :: KnownType(r)
  }

  // The next rule is decomposed behind what was emitted so far.
  lemma EmittedOn(rules: seq<Rule>, done: seq<Rule>, i: nat)
    requires i < |rules| && KnownType(rules[i]) && Emitted(rules) == done + Emitted(rules[i..])
    ensures Emitted(rules) == done + Decomposed(rules[i]) + Emitted(rules[i + 1..])
  {
    assert rules[i..][1..] == rules[i + 1..];
  }

  lemma DefaultsAreDistinct(user: User)
    ensures var d := Defaults(user); forall i, j | 0 <= i < j < |d| :: d[i].path != d[j].path
  {
    var d := Defaults(user);
    assert |d[0].path| == 9 && |d[1].path| == 9 && |d[2].path| == 9 && |d[3].path| == 11 && |d[4].path| == 12
        && |d[5].path| == 8;
    assert d[0].path[5] == 'n' && d[1].path[5] == 'z' && d[2].path[5] == 'f';
  }

  lemma EnabledBefore(devices: seq<Device>, added: seq<Device>, path: string)
    requires forall d | d in added :: d.path != path
    ensures Enabled(devices + added, path) <==> Enabled(devices, path)
  {
    assert forall i | 0 <= i < |devices| :: (devices + added)[i] == devices[i];
    assert forall i | 0 <= i < |added| :: added[i] in added;
  }

  lemma MissingOn(devices: seq<Device>, defaults: seq<Device>, added: seq<Device>, i: nat)
    requires i < |defaults| && MissingFrom(devices, defaults) == added + MissingFrom(devices, defaults[i..])
    ensures MissingFrom(devices, defaults) ==
            (if Enabled(devices, defaults[i].path) then added else added + [defaults[i]]) +
                MissingFrom(devices, defaults[i + 1..])
  {
    assert defaults[i..][1..] == defaults[i + 1..];
  }

  lemma AllowMore(added: seq<Device>, d: Device)
    ensures AllowRules(added + [d]) == AllowRules(added) + [AllowRule(d)]
  {
  }

  // ---------------------------------------------------------------- the decisions stay

  // The rules but for those that deny any type.
  function Kept(rules: seq<Rule>): seq<Rule> {
    if rules == [] then [] else (if DeniesAnyType(rules[0]) then [] else [rules[0]]) + Kept(rules[1..])
  }

  lemma {:induction false} DecideConcat(a: seq<Rule>, b: seq<Rule>, q: Query, otherwise: bool)
    ensures Decide(a + b, q, otherwise) == Decide(b, q, Decide(a, q, otherwise))
  {
    if a == [] {
      assert a + b == b;
    } else {
      assert (a + b)[1..] == a[1..] + b;
      DecideConcat(a[1..], b, q, if Matches(a[0], q) then a[0].allow else otherwise);
    }
  }

  lemma DecideOne(r: Rule, q: Query, otherwise: bool)
    ensures Decide([r], q, otherwise) == if Matches(r, q) then r.allow else otherwise
  {
    assert [r][1..] == [];
  }

  lemma DecideDecomposed(r: Rule, q: Query, otherwise: bool)
    requires KnownType(r) && !DeniesAnyType(r) && (q.typ == "b" || q.typ == "c")
    ensures Decide(Decomposed(r), q, otherwise) == Decide([r], q, otherwise)
  {
    DecideOne(r, q, otherwise);
    if r.typ == "" {
      var b, c := r.(typ := "b"), r.(typ := "c");
      assert [b, c] == [b] + [c];
      DecideConcat([b], [c], q, otherwise);
      DecideOne(b, q, otherwise);
      DecideOne(c, q, Decide([b], q, otherwise));
    }
  }

  // What LXC decides by its last match is what the specification's rules decide without those that
  // deny any type.
  lemma {:induction false} EmittedDecidesAsKept(rules: seq<Rule>, q: Query, otherwise: bool)
    requires AllKnown(rules) && (q.typ == "b" || q.typ == "c")
    ensures Decide(Emitted(rules), q, otherwise) == Decide(Kept(rules), q, otherwise)
  {
    if rules != [] {
      var r, rest := rules[0], rules[1..];
      if DeniesAnyType(r) {
        assert Emitted(rules) == [] + Emitted(rest) && Kept(rules) == [] + Kept(rest);
        assert [] + Emitted(rest) == Emitted(rest) && [] + Kept(rest) == Kept(rest);
        EmittedDecidesAsKept(rest, q, otherwise);
      } else {
        DecideConcat(Decomposed(r), Emitted(rest), q, otherwise);
        DecideConcat([r], Kept(rest), q, otherwise);
        DecideDecomposed(r, q, otherwise);
        EmittedDecidesAsKept(rest, q, Decide([r], q, otherwise));
      }
    }
  }

  // The last rule that matches.
  function LastMatch(rules: seq<Rule>, q: Query): Option<Rule> {
    if rules == [] then None
    else var r := rules[|rules| - 1]; if Matches(r, q) then Some(r) else LastMatch(rules[..|rules| - 1], q)
  }

  lemma {:induction false} LastMatchDecides(rules: seq<Rule>, q: Query, otherwise: bool)
    ensures Decide(rules, q, otherwise) == match LastMatch(rules, q) case None => otherwise case Some(r) => r.allow
  {
    if rules != [] {
      var init, last := rules[..|rules| - 1], rules[|rules| - 1];
      assert rules == init + [last];
      DecideConcat(init, [last], q, otherwise);
      DecideOne(last, q, Decide(init, q, otherwise));
      LastMatchDecides(init, q, otherwise);
    }
  }

  lemma {:induction false} KeptConcat(a: seq<Rule>, b: seq<Rule>)
    ensures Kept(a + b) == Kept(a) + Kept(b)
  {
    if a == [] {
      assert a + b == b;
    } else {
      assert (a + b)[1..] == a[1..] + b;
      KeptConcat(a[1..], b);
    }
  }

  lemma {:induction false} KeptLastMatch(rules: seq<Rule>, q: Query)
    ensures var r := LastMatch(rules, q); (r.Some? ==> !DeniesAnyType(r.value)) ==> LastMatch(Kept(rules), q) == r
  {
    if rules != [] {
      var init, last := rules[..|rules| - 1], rules[|rules| - 1];
      assert rules == init + [last];
      KeptConcat(init, [last]);
      assert [last][1..] == [];
      if DeniesAnyType(last) { assert Kept([last]) == [] && Kept(rules) == Kept(init); }
      else { assert Kept([last]) == [last] && Kept(rules)[..|Kept(rules)| - 1] == Kept(init); }
      KeptLastMatch(init, q);
    }
  }

  // Leaving those out changes a decision exactly where one of them was the last match and an allowing
  // decision, or an allowing default, was behind it.
  lemma WhereDenyAnyMatters(rules: seq<Rule>, q: Query, otherwise: bool)
    ensures Decide(Kept(rules), q, otherwise) != Decide(rules, q, otherwise) <==>
            LastMatch(rules, q).Some? && DeniesAnyType(LastMatch(rules, q).value) && Decide(Kept(rules), q, otherwise)
  {
    LastMatchDecides(rules, q, otherwise);
    LastMatchDecides(Kept(rules), q, otherwise);
    KeptLastMatch(rules, q);
  }

  // ---------------------------------------------------------------- the default devices are allowed

  predicate AllAllow(rules: seq<Rule>) {
    forall r | r in rules :: r.allow && !DeniesAnyType(r) && KnownType(r)
  }

  predicate SomeMatches(rules: seq<Rule>, q: Query) {
    exists r | r in rules :: Matches(r, q)
  }

  lemma {:induction false} AllowingDecides(rules: seq<Rule>, q: Query, otherwise: bool)
    requires forall r | r in rules :: r.allow
    ensures Decide(rules, q, otherwise) <==> otherwise || SomeMatches(rules, q)
  {
    if rules != [] {
      assert forall r | r in rules :: r == rules[0] || r in rules[1..];
      AllowingDecides(rules[1..], q, if Matches(rules[0], q) then rules[0].allow else otherwise);
    }
  }

  lemma AddedRulesAllow(devices: seq<Device>, user: User)
    ensures AllAllow(AddedRules(devices, user))
  {
    var missing := MissingFrom(devices, Defaults(user));
    MissingAreDefaults(devices, Defaults(user));
    AllowRulesAllow(missing);
    assert forall r | r in AddedRules(devices, user) :: r == PTMX_RULE || r == PTS_RULE || r in AllowRules(missing);
  }

  lemma AllowRulesAllow(devices: seq<Device>)
    requires forall d | d in devices :: d.typ == "c"
    ensures AllAllow(AllowRules(devices))
  {
  }

  lemma {:induction false} MissingAreDefaults(devices: seq<Device>, defaults: seq<Device>)
    ensures forall d | d in MissingFrom(devices, defaults) :: d in defaults
    ensures forall d | d in defaults && !Enabled(devices, d.path) :: d in MissingFrom(devices, defaults)
  {
    if defaults != [] {
      assert forall d | d in defaults :: d == defaults[0] || d in defaults[1..];
      MissingAreDefaults(devices, defaults[1..]);
    }
  }

  lemma {:induction false} KeptAllowing(rules: seq<Rule>)
    requires AllAllow(rules)
    ensures Kept(rules) == rules
  {
    if rules != [] { KeptAllowing(rules[1..]); }
  }

  // With the defaults added, LXC allows what it allowed before and what an added rule matches.
  lemma DefaultsOnlyAdd(rules: seq<Rule>, devices: seq<Device>, user: User, q: Query, otherwise: bool)
    requires AllKnown(rules) && (q.typ == "b" || q.typ == "c")
    ensures var added := AddedRules(devices, user);
            Decide(Emitted(rules + added), q, otherwise) <==>
              Decide(Emitted(rules), q, otherwise) || SomeMatches(added, q)
  {
    var added := AddedRules(devices, user);
    AddedRulesAllow(devices, user);
    EmittedDecidesAsKept(rules + added, q, otherwise);
    EmittedDecidesAsKept(rules, q, otherwise);
    KeptConcat(rules, added);
    KeptAllowing(added);
    DecideConcat(Kept(rules), added, q, otherwise);
    AllowingDecides(added, q, Decide(Kept(rules), q, otherwise));
  }

  // Every default device that was missing from the specification ends up allowed for reading,
  // writing and making nodes, whatever the rules and the default decision are; so do /dev/ptmx and
  // the pseudo-terminals.
  lemma MissingDefaultsAreAllowed(rules: seq<Rule>, devices: seq<Device>, user: User, d: Device, access: char,
        otherwise: bool)
    requires AllKnown(rules) && d in Defaults(user) && !Enabled(devices, d.path) && access in "rwm"
    ensures Decide(Emitted(rules + AddedRules(devices, user)), Query(d.typ, d.major, d.minor, access), otherwise)
  {
    var added := AddedRules(devices, user);
    var missing := MissingFrom(devices, Defaults(user));
    MissingAreDefaults(devices, Defaults(user));
    var i :| 0 <= i < |missing| && missing[i] == d;
    assert added[2 + i] == AllowRule(d) && AllowRule(d) in added;
    DefaultsOnlyAdd(rules, devices, user, Query(d.typ, d.major, d.minor, access), otherwise);
  }

  lemma TerminalsAreAllowed(rules: seq<Rule>, devices: seq<Device>, user: User, minor: int, access: char,
        otherwise: bool)
    requires AllKnown(rules) && access in "rwm"
    ensures Decide(Emitted(rules + AddedRules(devices, user)), Query("c", 5, 2, access), otherwise)
    ensures Decide(Emitted(rules + AddedRules(devices, user)), Query("c", 88, minor, access), otherwise)
  {
    var added := AddedRules(devices, user);
    assert added[0] == PTMX_RULE && added[1] == PTS_RULE && PTMX_RULE in added && PTS_RULE in added;
    DefaultsOnlyAdd(rules, devices, user, Query("c", 5, 2, access), otherwise);
    DefaultsOnlyAdd(rules, devices, user, Query("c", 88, minor, access), otherwise);
  }
}
